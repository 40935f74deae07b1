/**
 * The generation engine: DefaultWorkflow.workflow and the type builders that
 * call back into it (array, collection, map and configuration-based). The
 * recursion is bounded by `fuel`, the number of nested workflow calls left;
 * running out is the StackOverflowError the unbounded Java recursion ends in.
 */
module Engine {
  import opened Types
  import opened Settings
  import opened Configuration
  import opened Environment
  import opened AbstractTypeHandler
  import opened Containers
  import opened ConfigurationResolution
  import opened DefaultGenerator
  import ScalarBuilders
  import ImmutableBuilder

  /** The builders a context installs into an empty workflow, in their order of precedence. */
  const DefaultTypeBuilders: seq<BuilderTag> :=
    [PrimitiveBuilder, EnumBuilder, ArrayBuilder, CollectionBuilder, MapBuilder,
     ConfigurationBasedBuilder, ImmutableBuilder]

  /**
   * What the workflow settles on: the first builder outcome that is not
   * null (an object or an exception), null when all are.
   */
  function Decision(outcomes: seq<Result<Value>>): (r: Result<Value>)
    ensures r == Ok(Null) <==> forall i :: 0 <= i < |outcomes| ==> outcomes[i] == Ok(Null)
    ensures r != Ok(Null) ==> r in outcomes
  {
    if |outcomes| == 0 then Ok(Null)
    else if outcomes[0] != Ok(Null) then outcomes[0]
    else
      assert forall i :: 1 <= i < |outcomes| ==> outcomes[i] == outcomes[1..][i - 1];
      Decision(outcomes[1..])
  }

  /** The decision is the first outcome that is not null. */
  lemma {:induction false} DecisionIsFirstDecisive(outcomes: seq<Result<Value>>, i: int)
    requires 0 <= i < |outcomes| && outcomes[i] != Ok(Null)
    requires forall j :: 0 <= j < i ==> outcomes[j] == Ok(Null)
    ensures Decision(outcomes) == outcomes[i]
  {
    if 0 < i {
      DecisionIsFirstDecisive(outcomes[1..], i - 1);
    }
  }

  /** When only the last outcome may be decisive, it is the decision. */
  lemma {:induction false} DecisionAfterNulls(outcomes: seq<Result<Value>>)
    requires forall j :: 0 <= j < |outcomes| - 1 ==> outcomes[j] == Ok(Null)
    ensures Decision(outcomes) == if |outcomes| == 0 then Ok(Null) else outcomes[|outcomes| - 1]
  {
    if 1 < |outcomes| {
      DecisionAfterNulls(outcomes[1..]);
    }
  }

  /** A builder's outcome for a primitive or scalar class, as PrimitiveTypeBuilder promises it. */
  ghost predicate PrimitiveOutcome(s: SettingsData, t: TypeId, v: Value)
  {
    var c := ScalarBuilders.ValueClass(t);
    (!c.Scalar? ==> v == Null)
    && (c.Scalar? && BadBounds(s, c.sc) ==> v == Null)
    && (c.Scalar? && !BadBounds(s, c.sc) ==> Conforms(s, c.sc, v))
  }

  /** The container size draw throws: sizes are random and the maximum is below the minimum. */
  predicate SizeBoundsInverted(s: SettingsData)
  {
    s.randomContainerSize && s.maxContainerSize < s.minContainerSize
  }

  /**
   * What ListLikeTypeBuilder promises about the array itself, whatever its
   * slots hold: the two size exceptions, a null array only for an empty
   * one with nullOnEmptySet, a length the settings allow, and no null in an
   * array of primitives.
   */
  predicate ListLikeShape(s: SettingsData, t: TypeId, o: Result<Value>)
    requires t.Array? || t.Coll?
  {
    (SizeBoundsInverted(s) ==> o == Err(IllegalArgument(MinGreaterThanMax)))
    && (!s.randomContainerSize && s.defaultContainerSize < 0 ==> o == Err(NegativeArraySize))
    && (o == Ok(Null) ==> s.nullOnEmptySet && SizeAllowed(s, 0))
    && (o.Ok? && o.value != Null ==>
          o.value.ArrV? && SizeAllowed(s, |o.value.elems|) && (|o.value.elems| == 0 ==> !s.nullOnEmptySet)
          && (t.elem.Prim? ==> Null !in o.value.elems))
  }

  /** What CollectionTypeBuilder promises about the collection itself, whatever it holds. */
  predicate CollectionShape(env: Env, t: TypeId, o: Result<Value>)
    requires t.Coll?
  {
    var s := env.settings;
    var empty := EmptyCollection(env.abstractTypes, t);
    (SizeBoundsInverted(s) ==> o == Err(IllegalArgument(MinGreaterThanMax)))
    && (!s.randomContainerSize && s.defaultContainerSize < 0 ==> o == Err(NegativeArraySize))
    && (o == Ok(Null) ==> s.nullOnEmptySet && SizeAllowed(s, 0))
    && (o.Ok? && o.value != Null && t.shape == ListShape ==>
          o.value.ListV? && o.value.lcls == empty.lcls && SizeAllowed(s, |o.value.elems|)
          && (|o.value.elems| == 0 ==> !s.nullOnEmptySet) && (t.elem.Prim? ==> Null !in o.value.elems))
    && (o.Ok? && o.value != Null && t.shape == SetShape ==>
          o.value.SetV? && o.value.scls == empty.scls && (t.elem.Prim? ==> Null !in o.value.members))
  }

  /**
   * What MapTypeBuilder promises about the map itself, whatever it holds:
   * the size exception, a null map only for size 0 with nullOnEmptySet, an
   * empty map for a negative default size, and the map class of the type.
   */
  predicate MapShape(env: Env, t: TypeId, o: Result<Value>)
    requires t.MapT?
  {
    var s := env.settings;
    var empty := EmptyMap(env.abstractTypes, t);
    (SizeBoundsInverted(s) ==> o == Err(IllegalArgument(MinGreaterThanMax)))
    && (!s.randomContainerSize && s.defaultContainerSize < 0 ==> o == Ok(empty))
    && (o == Ok(Null) ==> s.nullOnEmptySet && SizeAllowed(s, 0))
    && (o.Ok? && o.value != Null ==> o.value.MapV? && o.value.mcls == empty.mcls)
  }

  /** A staged value after the undefined properties of nested maps are filled: the same, or a map extending it. */
  predicate Extends(before: Value, after: Value)
  {
    before == after
    || (before.RecV? && after.RecV? && before.fields.Keys <= after.fields.Keys
        && forall f :: f in before.fields ==> after.fields[f] == before.fields[f])
  }

  /** The class a configuration-based build works on: t's substitute in the handler that builder captured, or t. */
  function Target(env: Env, t: TypeId): (u: TypeId)
    ensures Erase(t) in env.configTypes ==> u == env.configTypes[Erase(t)]
    ensures Erase(t) !in env.configTypes ==> u == t
  {
    FindAbstractTypeDefaultJavaType(env.configTypes, t)
  }

  /** The candidates of the configuration registered for exactly u; none when there is none. */
  function ObjectData(env: Env, u: TypeId): (d: Data)
    ensures u in env.typeMap ==> d == DataOf(env.typeMap[u])
    ensures u !in env.typeMap ==> d == map[]
  {
    if u in env.typeMap then DataOf(env.typeMap[u]) else map[]
  }

  /**
   * What a configuration-based build stages for class u, phase by phase
   * aside: only configured or described properties; every property of u's
   * own configuration, holding one of its candidates (a nested map possibly
   * extended); and, when generateUndefined is set, every described property.
   */
  ghost predicate StagedSummary(env: Env, u: TypeId, staged: map<string, Value>)
  {
    var data := ObjectData(env, u);
    var desc := Describe(env, u);
    staged.Keys <= data.Keys + Names(desc)
    && (forall k :: k in data ==> k in staged && exists c :: c in data[k] && Extends(c, staged[k]))
    && (env.settings.generateUndefined ==> Names(desc) <= staged.Keys)
  }

  /** What ConfigurationBasedTypeBuilder promises about its outcome for class u (t after substitution). */
  ghost predicate ConfigShape(env: Env, u: TypeId, o: Result<Value>)
  {
    var data := ObjectData(env, u);
    var desc := Describe(env, u);
    (HasEmptyCandidates(data) ==> o == Err(IllegalArgument(NonPositiveBound)))
    && (|desc| == 0 && !HasEmptyCandidates(data) ==> o == Ok(Null))
    && (o.Ok? && o.value != Null ==>
          exists staged :: 0 < |staged| && StagedSummary(env, u, staged) && o == Convert(env, RecV(staged), u))
  }

  /**
   * What ImmutableTypeBuilder promises about its outcome for t: null unless
   * t has a configuration with data; an exception exactly when a drawn key
   * is not an index; otherwise what the first workable constructor makes
   * from the drawn arguments, or null.
   */
  ghost predicate ImmutableShape(env: Env, t: TypeId, o: Result<Value>)
  {
    if t !in env.typeMap then o == Ok(Null)
    else
      var data := DataOf(env.typeMap[t]);
      (|data| == 0 ==> o == Ok(Null))
      && (o.Err? <==> exists k :: ImmutableBuilder.Drawn(data, k) && !ImmutableBuilder.ValidIndex(k, |data|))
      && (o.Ok? && 0 < |data| ==>
            exists slots :: ImmutableBuilder.SlotsFilled(data, slots)
                            && o.value == ImmutableBuilder.Constructed(env, t, slots))
  }

  /**
   * What each kind of builder promises about its outcome for a type: the
   * guard under which it declines (null), the exceptions it throws, and the
   * shape of what it builds. The ties of a container's elements and of an
   * object's filled properties to the nested workflow calls are stated by
   * each builder's own contract, not here.
   */
  ghost predicate Admissible(env: Env, tag: BuilderTag, t: TypeId, o: Result<Value>)
  {
    match tag
    case PrimitiveBuilder => o.Ok? && PrimitiveOutcome(env.settings, t, o.value)
    case EnumBuilder =>
      (!t.Enum? ==> o == Ok(Null))
      && (t.Enum? && |t.constants| == 0 ==> o == Err(IllegalArgument(NonPositiveBound)))
      && (t.Enum? && 0 < |t.constants| ==>
            o.Ok? && o.value.EnumV? && o.value.enumName == t.name && o.value.constant in t.constants)
    case ArrayBuilder => if t.Array? then ListLikeShape(env.settings, t, o) else o == Ok(Null)
    case CollectionBuilder => if t.Coll? then CollectionShape(env, t, o) else o == Ok(Null)
    case MapBuilder => if t.MapT? then MapShape(env, t, o) else o == Ok(Null)
    case ConfigurationBasedBuilder => ConfigShape(env, Target(env, t), o)
    case ImmutableBuilder => ImmutableShape(env, t, o)
    case CustomBuilder(n) => o == Ok(env.oracles.custom(n, t))
  }

  /**
   * One pass of the workflow over its builders for t: the builders asked,
   * in order, returned `outcomes`; each outcome is one its builder may
   * return; every builder asked but the last declined; and a pass that
   * stopped before the end of the list stopped at a decisive outcome.
   */
  ghost predicate Pass(env: Env, t: TypeId, outcomes: seq<Result<Value>>)
  {
    |outcomes| <= |env.builders|
    && (forall i {:trigger Admissible(env, env.builders[i], t, outcomes[i])} ::
          0 <= i < |outcomes| ==> Admissible(env, env.builders[i], t, outcomes[i]))
    && (forall i :: 0 <= i < |outcomes| - 1 ==> outcomes[i] == Ok(Null))
    && (|outcomes| < |env.builders| ==> 0 < |outcomes| && outcomes[|outcomes| - 1] != Ok(Null))
  }

  /**
   * r is what a workflow call for t returns with `fuel` nested calls left,
   * its builders having returned `outcomes`: the stack overflow when none
   * are left, otherwise the decision of one pass.
   */
  ghost predicate WorkflowCall(env: Env, t: TypeId, fuel: nat, outcomes: seq<Result<Value>>, r: Result<Value>)
  {
    (fuel == 0 ==> outcomes == [] && r == Err(StackOverflow))
    && (0 < fuel ==> Pass(env, t, outcomes) && r == Decision(outcomes))
  }

  /**
   * DefaultWorkflow.workflow: asks each builder in order and returns the
   * first non-null object; an exception from a builder ends the pass. The
   * ghost `outcomes` lists what the builders asked returned.
   */
  method Dispatch(env: Env, t: TypeId, fuel: nat) returns (r: Result<Value>, ghost outcomes: seq<Result<Value>>)
    decreases fuel, 0
    ensures WorkflowCall(env, t, fuel, outcomes, r)
  {
    outcomes := [];
    if fuel == 0 {
      return Err(StackOverflow), outcomes;
    }
    var i := 0;
    while i < |env.builders|
      invariant 0 <= i <= |env.builders|
      invariant |outcomes| == i
      invariant forall j :: 0 <= j < i ==> outcomes[j] == Ok(Null)
      invariant forall j :: 0 <= j < i ==> Admissible(env, env.builders[j], t, outcomes[j])
    {
      var o := BuildWith(env, env.builders[i], t, fuel - 1);
      outcomes := outcomes + [o];
      if o != Ok(Null) {
        DecisionAfterNulls(outcomes);
        return o, outcomes;
      }
      i := i + 1;
    }
    DecisionAfterNulls(outcomes);
    return Ok(Null), outcomes;
  }

  /**
   * TypeBuilder.build of the builder a tag names: an admissible outcome,
   * and, for the builders that recurse, what their elements, entries or
   * properties came from.
   */
  method BuildWith(env: Env, tag: BuilderTag, t: TypeId, fuel: nat) returns (r: Result<Value>)
    decreases fuel, 7
    ensures Admissible(env, tag, t, r)
    ensures tag == ArrayBuilder && t.Array? ==> exists size, slots :: ListLikeOutcome(env, t, fuel, r, size, slots)
    ensures tag == CollectionBuilder && t.Coll? ==>
              exists objs, size, slots :: ListLikeOutcome(env, t, fuel, objs, size, slots)
                && (objs.Err? || objs == Ok(Null) ==> r == objs)
                && (objs.Ok? && objs.value.ArrV? && t.shape == ListShape ==>
                      r.Ok? && r.value.ListV? && r.value.elems == objs.value.elems)
                && (objs.Ok? && objs.value.ArrV? && t.shape == SetShape ==>
                      r.Ok? && r.value.SetV? && r.value.members == set x | x in objs.value.elems)
    ensures tag == MapBuilder && t.MapT? ==>
              exists slots :: SlotsCalled(env, t, fuel, slots)
                && (r.Ok? && r.value != Null ==>
                      r.value.entries == MapOfPairs(Entries(env, t, slots).0, Entries(env, t, slots).1))
                && (r.Err? && !SizeBoundsInverted(env.settings) ==>
                      0 < |slots| && SlotEntry(env, t, slots[|slots| - 1]).Err?
                      && r.error == SlotEntry(env, t, slots[|slots| - 1]).error)
    ensures tag == ConfigurationBasedBuilder && r.Ok? && 0 < |Describe(env, Target(env, t))| ==>
              exists st :: Phases(env, Target(env, t), fuel, st)
                && r == if |st.staged| == 0 then Ok(Null) else Convert(env, RecV(st.staged), Target(env, t))
  {
    match tag {
      case PrimitiveBuilder =>
        var v := ScalarBuilders.PrimitiveBuild(env.settings, t);
        r := Ok(v);
      case EnumBuilder =>
        r := ScalarBuilders.EnumBuild(t);
      case ArrayBuilder =>
        ghost var size, slots;
        r, size, slots := ArrayBuild(env, t, fuel);
      case CollectionBuilder =>
        ghost var objs, size, slots;
        r, objs, size, slots := CollectionBuild(env, t, fuel);
      case MapBuilder =>
        ghost var size, slots;
        r, size, slots := MapBuild(env, t, fuel);
      case ConfigurationBasedBuilder =>
        ghost var st;
        r, st := ConfigBuild(env, t, fuel);
      case ImmutableBuilder =>
        ghost var slots;
        r, slots := ImmutableBuilder.ImmutableBuild(env, t);
      case CustomBuilder(n) =>
        r := Ok(env.oracles.custom(n, t));
    }
  }

  /** The default workflow builds an enum with constants as one of its constants. */
  lemma DefaultWorkflowBuildsEnums(env: Env, t: TypeId, outcomes: seq<Result<Value>>)
    requires env.builders == DefaultTypeBuilders
    requires t.Enum? && 0 < |t.constants|
    requires Pass(env, t, outcomes)
    ensures Decision(outcomes).Ok? && Decision(outcomes).value.EnumV?
    ensures Decision(outcomes).value.constant in t.constants
  {
    assert env.builders[0] == PrimitiveBuilder && env.builders[1] == EnumBuilder;
    assert 0 < |outcomes|;
    PrimitiveDeclinesEnum(env, t, outcomes[0]);
    assert 2 <= |outcomes|;
    var o := outcomes[1];
    assert Admissible(env, EnumBuilder, t, o);
    DecisionIsFirstDecisive(outcomes, 1);
  }

  /** PrimitiveTypeBuilder declines an enum. */
  lemma PrimitiveDeclinesEnum(env: Env, t: TypeId, o: Result<Value>)
    requires t.Enum?
    requires Admissible(env, PrimitiveBuilder, t, o)
    ensures o == Ok(Null)
  {
    assert ScalarBuilders.ValueClass(t) == t;
  }

  /**
   * With PrimitiveTypeBuilder first, a scalar class whose bounds are sound
   * (other than String and Object, which may come out null) is built by it,
   * and the value lies within the settings.
   */
  lemma PrimitiveFirstBuildsScalars(env: Env, t: TypeId, outcomes: seq<Result<Value>>)
    requires 0 < |env.builders| && env.builders[0] == PrimitiveBuilder
    requires ScalarBuilders.ValueClass(t).Scalar?
    requires ScalarBuilders.ValueClass(t).sc != StringC && ScalarBuilders.ValueClass(t).sc != ObjectC
    requires !BadBounds(env.settings, ScalarBuilders.ValueClass(t).sc)
    requires Pass(env, t, outcomes)
    ensures Decision(outcomes).Ok? && Conforms(env.settings, ScalarBuilders.ValueClass(t).sc, Decision(outcomes).value)
  {
    assert Admissible(env, PrimitiveBuilder, t, outcomes[0]);
    assert outcomes[0] != Ok(Null);
  }

  /** A slot whose workflow call returned an object the array can hold. */
  ghost predicate SlotKept(env: Env, e: TypeId, fuel: nat, outcomes: seq<Result<Value>>)
  {
    WorkflowCall(env, e, fuel, outcomes, Decision(outcomes)) && Decision(outcomes).Ok?
    && (e.Prim? ==> Decision(outcomes) != Ok(Null))
  }

  /**
   * The slots of a non-empty list-like array of content type e: one
   * workflow call per slot, in order, `slots` holding what each call's
   * builders returned. Built, every slot holds its call's object; thrown,
   * the earlier calls returned objects the array can hold, and the last
   * one threw, or returned null for an array of primitives.
   */
  ghost predicate SlotCalls(env: Env, e: TypeId, fuel: nat, r: Result<Value>, size: int, slots: seq<seq<Result<Value>>>)
  {
    0 < |slots| <= size
    && (r.Ok? ==>
          r.value.ArrV? && |slots| == |r.value.elems| == size
          && forall i :: 0 <= i < size ==> WorkflowCall(env, e, fuel, slots[i], Ok(r.value.elems[i])))
    && (r.Err? ==>
          (forall i :: 0 <= i < |slots| - 1 ==> SlotKept(env, e, fuel, slots[i]))
          && (WorkflowCall(env, e, fuel, slots[|slots| - 1], r)
              || (e.Prim? && r == Err(IllegalArgument(NullIntoPrimitiveArray))
                  && WorkflowCall(env, e, fuel, slots[|slots| - 1], Ok(Null)))))
  }

  /**
   * What ListLikeTypeBuilder.build returns for t, given the size it drew
   * and the builders' outcomes of each slot's workflow call: the array's
   * shape, the size that decides it, and the slots' calls.
   */
  ghost predicate ListLikeOutcome(env: Env, t: TypeId, fuel: nat, r: Result<Value>, size: int, slots: seq<seq<Result<Value>>>)
    requires t.Array? || t.Coll?
  {
    var s := env.settings;
    ListLikeShape(s, t, r)
    && (SizeBoundsInverted(s) ==> slots == [])
    && (!SizeBoundsInverted(s) ==> SizeAllowed(s, size))
    && (!SizeBoundsInverted(s) && size < 0 ==> r == Err(NegativeArraySize) && slots == [])
    && (!SizeBoundsInverted(s) && size == 0 ==> r == Ok(if s.nullOnEmptySet then Null else ArrV([])) && slots == [])
    && (!SizeBoundsInverted(s) && 0 < size ==> SlotCalls(env, t.elem, fuel, r, size, slots))
  }

  /** Slots that each hold their call's object, with no null in an array of primitives, are kept. */
  lemma SlotsKept(env: Env, e: TypeId, fuel: nat, elems: seq<Value>, slots: seq<seq<Result<Value>>>)
    requires |elems| == |slots|
    requires forall j :: 0 <= j < |slots| ==> WorkflowCall(env, e, fuel, slots[j], Ok(elems[j]))
    requires e.Prim? ==> Null !in elems
    ensures forall j :: 0 <= j < |slots| ==> SlotKept(env, e, fuel, slots[j])
  {
    forall j | 0 <= j < |slots|
      ensures SlotKept(env, e, fuel, slots[j])
    {
      assert WorkflowCall(env, e, fuel, slots[j], Ok(elems[j]));
      assert elems[j] in elems;
    }
  }

  /**
   * ListLikeTypeBuilder.build: an array of the content type, of a size the
   * settings allow, each slot filled by its own workflow call. A negative
   * size throws; an empty array is null when nullOnEmptySet is set; a null
   * slot in a primitive array throws. The ghost `slots` are the builders'
   * outcomes of each slot's call.
   */
  method ListLikeBuild(env: Env, t: TypeId, fuel: nat)
    returns (r: Result<Value>, ghost size: int, ghost slots: seq<seq<Result<Value>>>)
    requires t.Array? || t.Coll?
    decreases fuel, 1
    ensures ListLikeOutcome(env, t, fuel, r, size, slots)
  {
    size, slots := 0, [];
    var n := ContainerSize(env.settings);
    if n.Err? {
      return Err(n.error), size, slots;
    }
    size := n.value;
    if n.value < 0 {
      return Err(NegativeArraySize), size, slots;
    }
    if n.value == 0 {
      return Ok(if env.settings.nullOnEmptySet then Null else ArrV([])), size, slots;
    }
    var elems := [];
    var i := 0;
    while i < n.value
      invariant 0 <= i <= n.value
      invariant |elems| == |slots| == i
      invariant forall j :: 0 <= j < i ==> WorkflowCall(env, t.elem, fuel, slots[j], Ok(elems[j]))
      invariant t.elem.Prim? ==> Null !in elems
    {
      var v;
      ghost var outcomes;
      v, outcomes := Dispatch(env, t.elem, fuel);
      if v.Err? || (v.value == Null && t.elem.Prim?) {
        SlotsKept(env, t.elem, fuel, elems, slots);
        slots := slots + [outcomes];
        if v.Err? {
          return v, size, slots;
        }
        return Err(IllegalArgument(NullIntoPrimitiveArray)), size, slots;
      }
      elems := elems + [v.value];
      slots := slots + [outcomes];
      i := i + 1;
    }
    return Ok(ArrV(elems)), size, slots;
  }

  /** ArrayTypeBuilder.build: null for a type that is not an array, the list-like array otherwise. */
  method ArrayBuild(env: Env, t: TypeId, fuel: nat)
    returns (r: Result<Value>, ghost size: int, ghost slots: seq<seq<Result<Value>>>)
    decreases fuel, 2
    ensures !t.Array? ==> r == Ok(Null)
    ensures t.Array? ==> ListLikeOutcome(env, t, fuel, r, size, slots)
  {
    size, slots := 0, [];
    if !t.Array? {
      return Ok(Null), size, slots;
    }
    r, size, slots := ListLikeBuild(env, t, fuel);
  }

  /** Every set made from a sequence has at most as many members as the sequence has elements. */
  lemma {:induction false} SetOfSeqBound<T>(s: seq<T>)
    ensures |set x | x in s| <= |s|
  {
    if |s| > 0 {
      var n := |s| - 1;
      SetOfSeqBound(s[..n]);
      assert (set x | x in s) == (set x | x in s[..n]) + {s[n]} by {
        assert s == s[..n] + [s[n]];
      }
    }
  }

  /**
   * CollectionTypeBuilder.build, corrected: the list-like array `objs` is
   * copied, in order, into an empty collection of the type's class; its
   * exceptions pass through; an absent array (empty with nullOnEmptySet)
   * gives a null collection instead of the NullPointerException the copy
   * throws as written.
   */
  method CollectionBuild(env: Env, t: TypeId, fuel: nat)
    returns (r: Result<Value>, ghost objs: Result<Value>, ghost size: int, ghost slots: seq<seq<Result<Value>>>)
    decreases fuel, 2
    ensures !t.Coll? ==> r == Ok(Null)
    ensures t.Coll? ==> ListLikeOutcome(env, t, fuel, objs, size, slots)
    ensures t.Coll? && objs.Err? ==> r == objs
    ensures t.Coll? && objs == Ok(Null) ==> r == Ok(Null)
    ensures t.Coll? && objs.Ok? && objs.value.ArrV? && t.shape == ListShape ==>
              r == Ok(ListV(EmptyCollection(env.abstractTypes, t).lcls, objs.value.elems))
    ensures t.Coll? && objs.Ok? && objs.value.ArrV? && t.shape == SetShape ==>
              r == Ok(SetV(EmptyCollection(env.abstractTypes, t).scls, set x | x in objs.value.elems))
              && |r.value.members| <= size
    ensures t.Coll? ==> CollectionShape(env, t, r)
  {
    objs, size, slots := Ok(Null), 0, [];
    if !t.Coll? {
      return Ok(Null), objs, size, slots;
    }
    var arr;
    arr, size, slots := ListLikeBuild(env, t, fuel);
    objs := arr;
    if arr.Err? {
      return arr, objs, size, slots;
    }
    if arr.value == Null {
      return Ok(Null), objs, size, slots;
    }
    var coll := EmptyCollection(env.abstractTypes, t);
    r := CopyIntoCollection(arr.value, coll);
    if t.shape == ListShape {
      assert coll.elems + arr.value.elems == arr.value.elems;
    } else {
      assert coll.members + (set x | x in arr.value.elems) == set x | x in arr.value.elems;
      SetOfSeqBound(arr.value.elems);
    }
    CopiedShape(env, t, arr, r);
  }

  /** A collection copied from a list-like array has the collection's shape. */
  lemma CopiedShape(env: Env, t: TypeId, arr: Result<Value>, r: Result<Value>)
    requires t.Coll? && ListLikeShape(env.settings, t, arr) && arr.Ok? && arr.value.ArrV?
    requires t.shape == ListShape ==> r == Ok(ListV(EmptyCollection(env.abstractTypes, t).lcls, arr.value.elems))
    requires t.shape == SetShape ==> r == Ok(SetV(EmptyCollection(env.abstractTypes, t).scls, set x | x in arr.value.elems))
    ensures CollectionShape(env, t, r)
  {
    if t.shape == SetShape && t.elem.Prim? {
      assert Null !in arr.value.elems;
    }
  }

  /**
   * One slot of a map build: the builders' outcomes of the key's workflow
   * call and its result, and the same for the value's call, which is made
   * only for a key that is an object (none: no outcomes, a null result).
   */
  datatype MapSlot = MapSlot(keyCall: seq<Result<Value>>, key: Result<Value>, valueCall: seq<Result<Value>>, value: Result<Value>)

  /** The slot's key call, and its value call exactly when the key came out an object. */
  ghost predicate SlotCalled(env: Env, t: TypeId, fuel: nat, m: MapSlot)
    requires t.MapT?
  {
    WorkflowCall(env, t.key, fuel, m.keyCall, m.key)
    && if m.key.Ok? && m.key.value != Null then WorkflowCall(env, t.value, fuel, m.valueCall, m.value)
       else m.valueCall == [] && m.value == Ok(Null)
  }

  /**
   * What a slot puts into the map: nothing for a null key; otherwise the
   * key and the value converted to the declared key and value types; or
   * the first exception of the key call, the value call and the two
   * conversions.
   */
  function SlotEntry(env: Env, t: TypeId, m: MapSlot): Result<Option<(Value, Value)>>
    requires t.MapT?
  {
    if m.key.Err? then Err(m.key.error)
    else if m.key.value == Null then Ok(None)
    else if m.value.Err? then Err(m.value.error)
    else
      var ck := Convert(env, m.key.value, t.key);
      var cv := Convert(env, m.value.value, t.value);
      if ck.Err? then Err(ck.error)
      else if cv.Err? then Err(cv.error)
      else Ok(Some((ck.value, cv.value)))
  }

  /** The keys and values the slots put, in slot order (a slot with a null key puts none). */
  function Entries(env: Env, t: TypeId, slots: seq<MapSlot>): (p: (seq<Value>, seq<Value>))
    requires t.MapT?
    ensures |p.0| == |p.1| <= |slots|
  {
    if |slots| == 0 then ([], [])
    else
      var p := Entries(env, t, slots[..|slots| - 1]);
      var e := SlotEntry(env, t, slots[|slots| - 1]);
      if e.Ok? && e.value.Some? then (p.0 + [e.value.value.0], p.1 + [e.value.value.1]) else p
  }

  /**
   * One iteration of MapTypeBuilder.build's loop: the key's workflow call,
   * the value's when the key is not null, and the conversions of both; the
   * result is the entry to put, none, or the exception.
   */
  method MapSlotBuild(env: Env, t: TypeId, fuel: nat) returns (e: Result<Option<(Value, Value)>>, ghost m: MapSlot)
    requires t.MapT?
    decreases fuel, 1
    ensures SlotCalled(env, t, fuel, m)
    ensures e == SlotEntry(env, t, m)
  {
    var k, v := Ok(Null), Ok(Null);
    ghost var kc, vc := [], [];
    k, kc := Dispatch(env, t.key, fuel);
    if k.Ok? && k.value != Null {
      v, vc := Dispatch(env, t.value, fuel);
    }
    m := MapSlot(kc, k, vc, v);
    if k.Err? {
      return Err(k.error), m;
    }
    if k.value == Null {
      return Ok(None), m;
    }
    if v.Err? {
      return Err(v.error), m;
    }
    var ck := Convert(env, k.value, t.key);
    if ck.Err? {
      return Err(ck.error), m;
    }
    var cv := Convert(env, v.value, t.value);
    if cv.Err? {
      return Err(cv.error), m;
    }
    return Ok(Some((ck.value, cv.value))), m;
  }

  /** Every slot made the workflow calls of a map slot. */
  ghost predicate SlotsCalled(env: Env, t: TypeId, fuel: nat, slots: seq<MapSlot>)
    requires t.MapT?
  {
    forall i :: 0 <= i < |slots| ==> SlotCalled(env, t, fuel, slots[i])
  }

  /** One more slot whose entry is put: the map so far gains that entry. */
  lemma EntriesStep(env: Env, t: TypeId, slots: seq<MapSlot>, m: MapSlot)
    requires t.MapT? && SlotEntry(env, t, m).Ok?
    ensures var p, q, e := Entries(env, t, slots), Entries(env, t, slots + [m]), SlotEntry(env, t, m).value;
            MapOfPairs(q.0, q.1) == if e.Some? then MapOfPairs(p.0, p.1)[e.value.0 := e.value.1] else MapOfPairs(p.0, p.1)
  {
    assert (slots + [m])[..|slots|] == slots;
    var p, e := Entries(env, t, slots), SlotEntry(env, t, m).value;
    if e.Some? {
      assert (p.0 + [e.value.0])[..|p.0|] == p.0 && (p.1 + [e.value.1])[..|p.1|] == p.1;
    }
  }

  /**
   * The loop of MapTypeBuilder.build: n slots, each putting its entry into
   * the map in turn; the first exception ends the loop. A negative n makes
   * no slot.
   */
  method PutSlots(env: Env, t: TypeId, fuel: nat, n: int) returns (r: Result<map<Value, Value>>, ghost slots: seq<MapSlot>)
    requires t.MapT?
    decreases fuel, 2
    ensures SlotsCalled(env, t, fuel, slots)
    ensures r.Ok? ==>
              |slots| == (if n < 0 then 0 else n)
              && (forall i :: 0 <= i < |slots| ==> SlotEntry(env, t, slots[i]).Ok?)
              && r.value == MapOfPairs(Entries(env, t, slots).0, Entries(env, t, slots).1)
    ensures r.Err? ==>
              0 < |slots| <= n
              && (forall i :: 0 <= i < |slots| - 1 ==> SlotEntry(env, t, slots[i]).Ok?)
              && SlotEntry(env, t, slots[|slots| - 1]).Err? && r.error == SlotEntry(env, t, slots[|slots| - 1]).error
  {
    slots := [];
    var entries := map[];
    var i := 0;
    while i < n
      invariant 0 <= i && (0 < n ==> i <= n) && (n <= 0 ==> i == 0)
      invariant |slots| == i
      invariant SlotsCalled(env, t, fuel, slots)
      invariant forall j :: 0 <= j < i ==> SlotEntry(env, t, slots[j]).Ok?
      invariant entries == MapOfPairs(Entries(env, t, slots).0, Entries(env, t, slots).1)
    {
      var e;
      ghost var m;
      e, m := MapSlotBuild(env, t, fuel);
      ghost var before := slots;
      slots := slots + [m];
      assert SlotsCalled(env, t, fuel, slots) by {
        assert forall j :: 0 <= j < |before| ==> slots[j] == before[j];
      }
      if e.Err? {
        return Err(e.error), slots;
      }
      EntriesStep(env, t, before, m);
      if e.value.Some? {
        var (ck, cv) := e.value.value;
        entries := entries[ck := cv];
      }
      i := i + 1;
    }
    return Ok(entries), slots;
  }

  /**
   * MapTypeBuilder.build: an empty map of the type's class, then one
   * workflow call for a key per slot and, when the key is not null, one for
   * its value; both are converted to the declared key and value types and
   * put, a later put of an equal key replacing the earlier. An empty map is
   * null when nullOnEmptySet is set; a negative size makes no slot and
   * leaves the map empty. The ghost `slots` are the slots' calls.
   */
  method MapBuild(env: Env, t: TypeId, fuel: nat)
    returns (r: Result<Value>, ghost size: int, ghost slots: seq<MapSlot>)
    decreases fuel, 3
    ensures !t.MapT? ==> r == Ok(Null)
    ensures t.MapT? ==> MapShape(env, t, r)
    ensures t.MapT? && !SizeBoundsInverted(env.settings) ==> SizeAllowed(env.settings, size)
    ensures t.MapT? ==> SlotsCalled(env, t, fuel, slots)
    ensures t.MapT? && r.Ok? && r.value != Null ==>
              |slots| == (if size < 0 then 0 else size)
              && (forall i :: 0 <= i < |slots| ==> SlotEntry(env, t, slots[i]).Ok?)
              && r.value.entries == MapOfPairs(Entries(env, t, slots).0, Entries(env, t, slots).1)
    ensures t.MapT? && r.Err? && !SizeBoundsInverted(env.settings) ==>
              0 < |slots| <= size
              && (forall i :: 0 <= i < |slots| - 1 ==> SlotEntry(env, t, slots[i]).Ok?)
              && SlotEntry(env, t, slots[|slots| - 1]).Err? && r.error == SlotEntry(env, t, slots[|slots| - 1]).error
  {
    size, slots := 0, [];
    if !t.MapT? {
      return Ok(Null), size, slots;
    }
    var empty := EmptyMap(env.abstractTypes, t);
    var n := ContainerSize(env.settings);
    if n.Err? {
      return Err(n.error), size, slots;
    }
    size := n.value;
    if n.value == 0 {
      return Ok(if env.settings.nullOnEmptySet then Null else empty), size, slots;
    }
    var entries;
    entries, slots := PutSlots(env, t, fuel, n.value);
    if entries.Err? {
      return Err(entries.error), size, slots;
    }
    return Ok(MapV(empty.mcls, entries.value)), size, slots;
  }

  /** The workflow calls of a fill: the properties asked for, in order, and what each call's builders returned. */
  datatype Fill = Fill(calls: seq<(string, TypeId)>, outs: seq<seq<Result<Value>>>)

  /**
   * `after` is `before` with every property of desc it lacks filled in by a
   * workflow call for that property's declared type, in description order:
   * the calls are exactly the missing properties, and each filled property
   * holds its call's object. Entries of `before` stay as they are.
   */
  ghost predicate Filled(env: Env, desc: Description, before: map<string, Value>, fuel: nat, f: Fill, after: map<string, Value>)
  {
    f.calls == Missing(desc, before.Keys) && |f.outs| == |f.calls|
    && after.Keys == before.Keys + Names(desc)
    && (forall k :: k in before ==> after[k] == before[k])
    && forall i :: 0 <= i < |f.calls| ==>
         f.calls[i].0 in after && WorkflowCall(env, f.calls[i].1, fuel, f.outs[i], Ok(after[f.calls[i].0]))
  }

  /** A fill that threw: its last workflow call threw it. */
  ghost predicate FillThrew(env: Env, fuel: nat, f: Fill, r: Result<map<string, Value>>)
    requires r.Err?
  {
    0 < |f.calls| == |f.outs|
    && WorkflowCall(env, f.calls[|f.calls| - 1].1, fuel, f.outs[|f.outs| - 1], Err(r.error))
  }

  /** Missing over a description extended by one property. */
  lemma {:induction false} MissingAppend(d: seq<(string, TypeId)>, p: (string, TypeId), keys: set<string>)
    ensures Missing(d + [p], keys) == Missing(d, keys) + (if p.0 in keys then [] else [p])
  {
    if |d| > 0 {
      assert (d + [p])[1..] == d[1..] + [p];
      MissingAppend(d[1..], p, keys);
    }
  }

  /** Missing over one more property of a description. */
  lemma MissingStep(d: seq<(string, TypeId)>, i: int, keys: set<string>)
    requires 0 <= i < |d|
    ensures Missing(d[..i + 1], keys) == Missing(d[..i], keys) + (if d[i].0 in keys then [] else [d[i]])
  {
    assert d[..i + 1] == d[..i] + [d[i]];
    MissingAppend(d[..i], d[i], keys);
  }

  /** The names of a description prefix, one property at a time; the next name is not among them. */
  lemma NamesStep(d: seq<(string, TypeId)>, i: int)
    requires 0 <= i < |d|
    ensures Names(d[..i + 1]) == Names(d[..i]) + {d[i].0}
  {
    assert d[..i + 1] == d[..i] + [d[i]];
  }

  /** In a description, the name of property i is not among those before it. */
  lemma NameFresh(d: Description, i: int)
    requires 0 <= i < |d|
    ensures d[i].0 !in Names(d[..i])
  {
    assert forall j :: 0 <= j < i ==> d[..i][j] == d[j];
  }

  /** Filling one more property keeps every earlier call's object in place. */
  lemma StoredExtended(calls: seq<(string, TypeId)>, vals: seq<Value>, acc: map<string, Value>, p: (string, TypeId), v: Value)
    requires |vals| == |calls| && p.0 !in acc
    requires forall j :: 0 <= j < |calls| ==> calls[j].0 in acc && acc[calls[j].0] == vals[j]
    ensures forall j :: 0 <= j < |calls| + 1 ==>
              (calls + [p])[j].0 in acc[p.0 := v] && acc[p.0 := v][(calls + [p])[j].0] == (vals + [v])[j]
  {
    forall j | 0 <= j < |calls| + 1
      ensures (calls + [p])[j].0 in acc[p.0 := v] && acc[p.0 := v][(calls + [p])[j].0] == (vals + [v])[j]
    {
      if j < |calls| {
        assert (calls + [p])[j] == calls[j] && (vals + [v])[j] == vals[j];
        assert calls[j].0 != p.0;
      }
    }
  }

  /** Workflow call j of a fill, for property calls[j], drew outcomes outs[j] and built vals[j]. */
  ghost predicate Called(env: Env, fuel: nat, calls: seq<(string, TypeId)>, outs: seq<seq<Result<Value>>>, vals: seq<Value>)
  {
    |outs| == |calls| == |vals|
    && forall j :: 0 <= j < |calls| ==> WorkflowCall(env, calls[j].1, fuel, outs[j], Ok(vals[j]))
  }

  /** One more successful workflow call extends a fill's record. */
  lemma CalledAppend(env: Env, fuel: nat, calls: seq<(string, TypeId)>, outs: seq<seq<Result<Value>>>, vals: seq<Value>,
                     p: (string, TypeId), o: seq<Result<Value>>, v: Value)
    requires Called(env, fuel, calls, outs, vals)
    requires WorkflowCall(env, p.1, fuel, o, Ok(v))
    ensures Called(env, fuel, calls + [p], outs + [o], vals + [v])
  {
    forall j | 0 <= j < |calls| + 1
      ensures WorkflowCall(env, (calls + [p])[j].1, fuel, (outs + [o])[j], Ok((vals + [v])[j]))
    {
      if j < |calls| {
        assert (calls + [p])[j] == calls[j] && (outs + [o])[j] == outs[j] && (vals + [v])[j] == vals[j];
      }
    }
  }

  /** The fill loop's invariants at its end are the fill's summary. */
  lemma FillDone(env: Env, desc: Description, staged: map<string, Value>, fuel: nat,
                 calls: seq<(string, TypeId)>, outs: seq<seq<Result<Value>>>, vals: seq<Value>, acc: map<string, Value>)
    requires FillState(env, desc, staged, fuel, |desc|, acc, calls, outs, vals)
    ensures Filled(env, desc, staged, fuel, Fill(calls, outs), acc)
  {
    assert desc[..|desc|] == desc;
  }

  /**
   * The fill loop's bookkeeping after the first i properties of desc:
   * which properties are staged, and which of them came from workflow calls.
   */
  ghost predicate FillKeys(desc: seq<(string, TypeId)>, staged: map<string, Value>, i: int,
                           acc: map<string, Value>, calls: seq<(string, TypeId)>, vals: seq<Value>)
  {
    0 <= i <= |desc| && |vals| == |calls|
    && acc.Keys == staged.Keys + Names(desc[..i])
    && (forall k :: k in staged ==> acc[k] == staged[k])
    && calls == Missing(desc[..i], staged.Keys)
    && forall j :: 0 <= j < |calls| ==> calls[j].0 in acc && acc[calls[j].0] == vals[j]
  }

  /** The fill loop's state after the first i properties of desc. */
  ghost predicate FillState(env: Env, desc: Description, staged: map<string, Value>, fuel: nat, i: int,
                            acc: map<string, Value>, calls: seq<(string, TypeId)>, outs: seq<seq<Result<Value>>>, vals: seq<Value>)
  {
    FillKeys(desc, staged, i, acc, calls, vals) && Called(env, fuel, calls, outs, vals)
  }

  /** A property of desc staged before the fill is passed over. */
  lemma FillKeysSkip(desc: Description, staged: map<string, Value>, i: int,
                     acc: map<string, Value>, calls: seq<(string, TypeId)>, vals: seq<Value>)
    requires FillKeys(desc, staged, i, acc, calls, vals) && i < |desc| && desc[i].0 in acc
    ensures FillKeys(desc, staged, i + 1, acc, calls, vals)
  {
    NamesStep(desc, i);
    NameFresh(desc, i);
    MissingStep(desc, i, staged.Keys);
  }

  /** A property of desc not yet staged is staged with v, the object of a new workflow call. */
  lemma FillKeysAdd(desc: seq<(string, TypeId)>, staged: map<string, Value>, i: int,
                    acc: map<string, Value>, calls: seq<(string, TypeId)>, vals: seq<Value>, v: Value)
    requires FillKeys(desc, staged, i, acc, calls, vals) && i < |desc| && desc[i].0 !in acc
    ensures FillKeys(desc, staged, i + 1, acc[desc[i].0 := v], calls + [desc[i]], vals + [v])
  {
    var acc', calls', vals' := acc[desc[i].0 := v], calls + [desc[i]], vals + [v];
    assert acc'.Keys == staged.Keys + Names(desc[..i + 1]) by { NamesStep(desc, i); }
    assert calls' == Missing(desc[..i + 1], staged.Keys) by {
      assert desc[i].0 !in staged;
      MissingStep(desc, i, staged.Keys);
    }
    assert forall j :: 0 <= j < |calls'| ==> calls'[j].0 in acc' && acc'[calls'[j].0] == vals'[j] by {
      StoredExtended(calls, vals, acc, desc[i], v);
    }
  }

  /**
   * One turn of the fill loop: property desc[i], unless already staged,
   * gets what the workflow builds for its declared type.
   */
  method FillStep(env: Env, desc: Description, staged: map<string, Value>, fuel: nat, i: int,
                  acc: map<string, Value>, ghost calls: seq<(string, TypeId)>, ghost outs: seq<seq<Result<Value>>>, ghost vals: seq<Value>)
    returns (r: Result<map<string, Value>>, ghost calls': seq<(string, TypeId)>, ghost outs': seq<seq<Result<Value>>>, ghost vals': seq<Value>)
    requires FillState(env, desc, staged, fuel, i, acc, calls, outs, vals) && i < |desc|
    decreases fuel, 1
    ensures r.Ok? ==> FillState(env, desc, staged, fuel, i + 1, r.value, calls', outs', vals')
    ensures r.Err? ==> FillThrew(env, fuel, Fill(calls', outs'), r)
  {
    var (n, ft) := desc[i];
    if n in acc {
      FillSkipped(env, desc, staged, fuel, i, acc, calls, outs, vals);
      return Ok(acc), calls, outs, vals;
    }
    var v;
    ghost var o;
    v, o := Dispatch(env, ft, fuel);
    if v.Err? {
      return Err(v.error), calls + [(n, ft)], outs + [o], vals;
    }
    FillCalled(env, desc, staged, fuel, i, acc, calls, outs, vals, o, v.value);
    return Ok(acc[n := v.value]), calls + [(n, ft)], outs + [o], vals + [v.value];
  }

  /** A property already staged is passed over by the fill loop. */
  lemma FillSkipped(env: Env, desc: Description, staged: map<string, Value>, fuel: nat, i: int,
                    acc: map<string, Value>, calls: seq<(string, TypeId)>, outs: seq<seq<Result<Value>>>, vals: seq<Value>)
    requires FillState(env, desc, staged, fuel, i, acc, calls, outs, vals) && i < |desc| && desc[i].0 in acc
    ensures FillState(env, desc, staged, fuel, i + 1, acc, calls, outs, vals)
  {
    FillKeysSkip(desc, staged, i, acc, calls, vals);
  }

  /** A property not yet staged gets the object of its workflow call. */
  lemma FillCalled(env: Env, desc: Description, staged: map<string, Value>, fuel: nat, i: int,
                   acc: map<string, Value>, calls: seq<(string, TypeId)>, outs: seq<seq<Result<Value>>>, vals: seq<Value>,
                   o: seq<Result<Value>>, v: Value)
    requires FillState(env, desc, staged, fuel, i, acc, calls, outs, vals) && i < |desc| && desc[i].0 !in acc
    requires WorkflowCall(env, desc[i].1, fuel, o, Ok(v))
    ensures FillState(env, desc, staged, fuel, i + 1, acc[desc[i].0 := v], calls + [desc[i]], outs + [o], vals + [v])
  {
    FillKeysAdd(desc, staged, i, acc, calls, vals, v);
    CalledAppend(env, fuel, calls, outs, vals, desc[i], o, v);
  }

  /**
   * resolveByWorkflow and the inner loop of resolveUndefined: every
   * described property not yet staged gets what the workflow builds for its
   * declared type, in description order; an exception ends the fill. The
   * ghost `fill` is the workflow calls made.
   */
  method FillMissing(env: Env, desc: Description, staged: map<string, Value>, fuel: nat)
    returns (r: Result<map<string, Value>>, ghost fill: Fill)
    decreases fuel, 2
    ensures r.Ok? ==> Filled(env, desc, staged, fuel, fill, r.value)
    ensures r.Err? ==> FillThrew(env, fuel, fill, r)
  {
    var acc := staged;
    ghost var calls: seq<(string, TypeId)>, outs: seq<seq<Result<Value>>>, vals: seq<Value> := [], [], [];
    var i := 0;
    while i < |desc|
      invariant 0 <= i <= |desc|
      invariant FillState(env, desc, staged, fuel, i, acc, calls, outs, vals)
    {
      var next;
      next, calls, outs, vals := FillStep(env, desc, staged, fuel, i, acc, calls, outs, vals);
      if next.Err? {
        return Err(next.error), Fill(calls, outs);
      }
      acc := next.value;
      i := i + 1;
    }
    FillDone(env, desc, staged, fuel, calls, outs, vals, acc);
    return Ok(acc), Fill(calls, outs);
  }

  /**
   * resolveUndefined: a nested map staged for a property of type ft gets
   * the properties ft describes and the map lacks, from the workflow; a
   * type without properties leaves it as it is.
   */
  method ResolveUndefined(env: Env, ft: TypeId, fields: map<string, Value>, fuel: nat)
    returns (r: Result<map<string, Value>>, ghost fill: Fill)
    decreases fuel, 3
    ensures |Describe(env, ft)| == 0 ==> r == Ok(fields) && fill == Fill([], [])
    ensures r.Ok? ==> Filled(env, Describe(env, ft), fields, fuel, fill, r.value)
    ensures r.Err? ==> FillThrew(env, fuel, fill, r)
  {
    var desc := Describe(env, ft);
    if |desc| == 0 {
      return Ok(fields), Fill([], []);
    }
    r, fill := FillMissing(env, desc, fields, fuel);
  }

  /**
   * What generateDefaultsForUndefined does to the entry for property k:
   * a nested map is filled, by the workflow calls `fills[k]`, with the
   * properties of k's declared type; any other value stays.
   */
  ghost predicate Completed(env: Env, desc: Description, fuel: nat, k: string, before: Value, after: Value, fills: map<string, Fill>)
  {
    if before.RecV? then
      Lookup(desc, k).Some? && after.RecV? && k in fills
      && Filled(env, Describe(env, Lookup(desc, k).value), before.fields, fuel, fills[k], after.fields)
    else after == before
  }

  /** A completed entry extends what was staged. */
  lemma CompletedExtends(env: Env, desc: Description, fuel: nat, k: string, before: Value, after: Value, fills: map<string, Fill>)
    requires Completed(env, desc, fuel, k, before, after, fills)
    ensures Extends(before, after)
  {
  }

  /** Completing one more staged entry keeps the entries completed before. */
  lemma CompletedStep(env: Env, desc: Description, fuel: nat, staged: map<string, Value>, todo: set<string>,
                      acc: map<string, Value>, fills: map<string, Fill>, k: string, a: Value, fills': map<string, Fill>)
    requires k in todo && todo <= staged.Keys && acc.Keys == staged.Keys
    requires forall x :: x in staged && x !in todo ==> Completed(env, desc, fuel, x, staged[x], acc[x], fills)
    requires forall x :: x in fills && x != k ==> x in fills' && fills'[x] == fills[x]
    requires Completed(env, desc, fuel, k, staged[k], a, fills')
    ensures forall x :: x in staged && x !in todo - {k} ==> Completed(env, desc, fuel, x, staged[x], acc[k := a][x], fills')
  {
    forall x | x in staged && x !in todo - {k}
      ensures Completed(env, desc, fuel, x, staged[x], acc[k := a][x], fills')
    {
      if x != k {
        assert Completed(env, desc, fuel, x, staged[x], acc[x], fills);
      }
    }
  }

  /**
   * generateDefaultsForUndefined: for every staged entry holding a map, in
   * no particular order, the map is completed with the properties the
   * entry's declared type describes. An entry whose name the object does not
   * describe has no declared type, and describing null throws. The ghost
   * `fills` are the workflow calls made for each completed entry.
   */
  method GenerateDefaultsForUndefined(env: Env, desc: Description, staged: map<string, Value>, fuel: nat)
    returns (r: Result<map<string, Value>>, ghost fills: map<string, Fill>)
    decreases fuel, 4
    ensures |desc| == 0 || !env.settings.generateUndefined ==> r == Ok(staged) && fills == map[]
    ensures (0 < |desc| && env.settings.generateUndefined
             && exists k :: k in staged && staged[k].RecV? && Lookup(desc, k).None?) ==> r.Err?
    ensures r.Ok? ==> r.value.Keys == staged.Keys
    ensures r.Ok? && 0 < |desc| && env.settings.generateUndefined ==>
              forall k :: k in staged ==> Completed(env, desc, fuel, k, staged[k], r.value[k], fills)
  {
    fills := map[];
    if |desc| == 0 || !env.settings.generateUndefined {
      return Ok(staged), fills;
    }
    var acc := staged;
    var todo := staged.Keys;
    while todo != {}
      invariant todo <= staged.Keys
      invariant acc.Keys == staged.Keys
      invariant forall k :: k in todo ==> acc[k] == staged[k]
      invariant forall k :: k in staged && k !in todo ==> Completed(env, desc, fuel, k, staged[k], acc[k], fills)
      decreases |todo|
    {
      var k :| k in todo;
      var v := acc[k];
      if v.RecV? {
        var ft := Lookup(desc, k);
        if ft.None? {
          return Err(NullPointer), fills;
        }
        var filled;
        ghost var f;
        filled, f := ResolveUndefined(env, ft.value, v.fields, fuel);
        if filled.Err? {
          return Err(filled.error), fills[k := f];
        }
        CompletedStep(env, desc, fuel, staged, todo, acc, fills, k, RecV(filled.value), fills[k := f]);
        acc := acc[k := RecV(filled.value)];
        fills := fills[k := f];
      } else {
        CompletedStep(env, desc, fuel, staged, todo, acc, fills, k, v, fills);
      }
      todo := todo - {k};
    }
    return Ok(acc), fills;
  }

  /**
   * resolveByWorkflow followed by generateDefaultsForUndefined, both only
   * when generateUndefined is set: the missing properties are filled by the
   * workflow (the ghost `filled` is the map then, `fill` its calls), then
   * the nested maps are completed (`fills`). Every described property ends
   * up staged, nothing but described properties is added, and staged values
   * are kept or, for nested maps, extended.
   */
  method CompleteByWorkflow(env: Env, desc: Description, staged: map<string, Value>, fuel: nat)
    returns (r: Result<map<string, Value>>, ghost filled: map<string, Value>, ghost fill: Fill, ghost fills: map<string, Fill>)
    requires 0 < |desc|
    decreases fuel, 5
    ensures !env.settings.generateUndefined ==> r == Ok(staged) && filled == staged && fill == Fill([], []) && fills == map[]
    ensures r.Ok? && env.settings.generateUndefined ==>
              Filled(env, desc, staged, fuel, fill, filled) && r.value.Keys == filled.Keys
              && forall k :: k in filled ==> Completed(env, desc, fuel, k, filled[k], r.value[k], fills)
    ensures r.Ok? ==> staged.Keys <= r.value.Keys <= staged.Keys + Names(desc)
    ensures r.Ok? && env.settings.generateUndefined ==> Names(desc) <= r.value.Keys
    ensures r.Ok? ==> forall k :: k in staged ==> Extends(staged[k], r.value[k])
  {
    filled, fill, fills := staged, Fill([], []), map[];
    if !env.settings.generateUndefined {
      return Ok(staged), filled, fill, fills;
    }
    var w;
    w, fill := FillMissing(env, desc, staged, fuel);
    if w.Err? {
      return Err(w.error), filled, fill, fills;
    }
    filled := w.value;
    var g;
    g, fills := GenerateDefaultsForUndefined(env, desc, w.value, fuel);
    if g.Err? {
      return Err(g.error), filled, fill, fills;
    }
    forall k | k in staged
      ensures Extends(staged[k], g.value[k])
    {
      assert w.value[k] == staged[k];
      CompletedExtends(env, desc, fuel, k, w.value[k], g.value[k], fills);
    }
    return g, filled, fill, fills;
  }

  /**
   * The maps a configuration-based build stages, phase by phase, and the
   * workflow calls of its last two phases.
   */
  datatype Staging = Staging(
    objectLevel: map<string, Value>,  // after resolveByObjectConfig
    fieldLevel: map<string, Value>,   // after resolveByFieldConfig
    filled: map<string, Value>,       // after resolveByWorkflow
    staged: map<string, Value>,       // after generateDefaultsForUndefined
    fill: Fill,                       // resolveByWorkflow's workflow calls
    fills: map<string, Fill>)         // resolveUndefined's, per nested map

  /**
   * The phases of a configuration-based build of class u that ran to the
   * end: u's own configuration drawn; each unstaged property whose declared
   * type is configured drawn from that configuration; then, when
   * generateUndefined is set, the remaining properties filled by the
   * workflow and the nested maps completed, and otherwise nothing more.
   */
  ghost predicate Phases(env: Env, u: TypeId, fuel: nat, st: Staging)
  {
    var desc := Describe(env, u);
    Resolved(ObjectData(env, u), st.objectLevel)
    && FieldResolved(env, desc, st.objectLevel, st.fieldLevel)
    && if env.settings.generateUndefined then
         Filled(env, desc, st.fieldLevel, fuel, st.fill, st.filled)
         && st.staged.Keys == st.filled.Keys
         && forall k :: k in st.filled ==> Completed(env, desc, fuel, k, st.filled[k], st.staged[k], st.fills)
       else
         st.filled == st.fieldLevel && st.staged == st.fieldLevel && st.fill == Fill([], []) && st.fills == map[]
  }

  /** What the phases stage, in summary. */
  lemma PhasesSummary(env: Env, u: TypeId, fuel: nat, st: Staging)
    requires Phases(env, u, fuel, st)
    ensures StagedSummary(env, u, st.staged)
  {
    var data := ObjectData(env, u);
    var desc := Describe(env, u);
    forall k | k in st.fieldLevel
      ensures k in data || k in Names(desc)
    {
      if k !in st.objectLevel {
        var j :| 0 <= j < |desc| && desc[j].0 == k && FieldConfigured(env, st.objectLevel, desc[j])
                 && st.fieldLevel[k].RecV? && Resolved(DataOf(env.typeMap[desc[j].1]), st.fieldLevel[k].fields);
      }
    }
    forall k | k in data
      ensures k in st.staged && exists c :: c in data[k] && Extends(c, st.staged[k])
    {
      var c := st.objectLevel[k];
      assert c in data[k];
      assert st.fieldLevel[k] == c;
      if env.settings.generateUndefined {
        assert st.filled[k] == c;
        CompletedExtends(env, desc, fuel, k, st.filled[k], st.staged[k], st.fills);
      }
    }
  }

  /**
   * ConfigurationBasedTypeBuilder.build: after abstract-type substitution
   * (through the handler the builder captured), the object's own
   * configuration is drawn first, then the configurations of its
   * properties' types, then (when generateUndefined is set) the workflow
   * fills the remaining properties and the undefined properties of nested
   * maps. Null for a class without properties or when nothing was staged;
   * otherwise the staged map converted to the class. The ghost `st` holds
   * the phases' maps and workflow calls.
   */
  method ConfigBuild(env: Env, t: TypeId, fuel: nat) returns (r: Result<Value>, ghost st: Staging)
    decreases fuel, 6
    ensures HasEmptyCandidates(ObjectData(env, Target(env, t))) ==> r == Err(IllegalArgument(NonPositiveBound))
    ensures |Describe(env, Target(env, t))| == 0 && !HasEmptyCandidates(ObjectData(env, Target(env, t))) ==> r == Ok(Null)
    ensures r.Ok? && 0 < |Describe(env, Target(env, t))| ==>
              Phases(env, Target(env, t), fuel, st)
              && r == if |st.staged| == 0 then Ok(Null) else Convert(env, RecV(st.staged), Target(env, t))
    ensures ConfigShape(env, Target(env, t), r)
  {
    st := Staging(map[], map[], map[], map[], Fill([], []), map[]);
    var u := Target(env, t);
    var data := ObjectData(env, u);
    var acc: map<string, Value> := map[];
    if u in env.typeMap {
      var o := ResolveByObjectConfig(data);
      if o.Err? {
        return Err(o.error), st;
      }
      acc := o.value;
    }
    assert Resolved(data, acc);
    var desc := Describe(env, u);
    if |desc| == 0 {
      return Ok(Null), st;
    }
    var f := ResolveByFieldConfig(env, desc, acc);
    if f.Err? {
      return Err(f.error), st;
    }
    var g;
    ghost var filled, fill, fills;
    g, filled, fill, fills := CompleteByWorkflow(env, desc, f.value, fuel);
    if g.Err? {
      return Err(g.error), st;
    }
    st := Staging(acc, f.value, filled, g.value, fill, fills);
    assert Phases(env, u, fuel, st);
    PhasesSummary(env, u, fuel, st);
    if |g.value| == 0 {
      return Ok(Null), st;
    }
    r := Convert(env, RecV(g.value), u);
  }
}

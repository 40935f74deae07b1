/**
 * The two type builders that never call back into the workflow:
 * PrimitiveTypeBuilder and EnumTypeBuilder.
 */
module ScalarBuilders {
  import opened Types
  import opened Settings
  import opened DefaultGenerator
  import Draws

  /** The class createValue is asked for: a primitive's wrapper, otherwise the type itself. */
  function ValueClass(t: TypeId): TypeId
  {
    if t.Prim? then Scalar(Wrapper(t.kind)) else t
  }

  /**
   * PrimitiveTypeBuilder.build: a value of t's scalar class; null when t is
   * not a scalar class or the settings admit no value (the builder swallows
   * the IllegalArgumentException). It never throws.
   */
  method PrimitiveBuild(s: SettingsData, t: TypeId) returns (v: Value)
    ensures !ValueClass(t).Scalar? ==> v == Null
    ensures ValueClass(t).Scalar? && BadBounds(s, ValueClass(t).sc) ==> v == Null
    ensures ValueClass(t).Scalar? && !BadBounds(s, ValueClass(t).sc) ==> Conforms(s, ValueClass(t).sc, v)
  {
    var r := CreateValue(s, ValueClass(t));
    v := if r.Err? then Null else r.value;
  }

  /** Under the default settings (in a year from 1900 on) every scalar class admits a value. */
  lemma DefaultsAdmitEveryScalar(currentYear: Int32, c: ScalarClass)
    requires 1900 <= currentYear
    ensures !BadBounds(Defaults(currentYear), c)
  {
  }

  /**
   * EnumTypeBuilder.build: one of the enum's constants; null for a type that
   * is not an enum; an enum without constants makes nextInt(0) throw.
   */
  method EnumBuild(t: TypeId) returns (r: Result<Value>)
    ensures !t.Enum? ==> r == Ok(Null)
    ensures t.Enum? && |t.constants| == 0 ==> r == Err(IllegalArgument(NonPositiveBound))
    ensures t.Enum? && 0 < |t.constants| ==>
              r.Ok? && r.value.EnumV? && r.value.enumName == t.name && r.value.constant in t.constants
  {
    if !t.Enum? {
      return Ok(Null);
    }
    var c := Draws.Choose(t.constants);
    if c.Err? {
      return Err(c.error);
    }
    return Ok(EnumV(t.name, c.value));
  }
}

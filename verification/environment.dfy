/**
 * What a generation sees: the settings, the configuration mapping, the
 * abstract-type registrations and the workflow's builders, read at the start
 * of a generate call (generation is single-threaded, so they do not change
 * during it), plus the behaviour of reflection and Jackson, which the model
 * takes as given functions.
 */
module Environment {
  import opened Types
  import opened Settings
  import opened Configuration
  import opened AbstractTypeHandler

  /** A public constructor: its parameter classes in declaration order. */
  datatype Ctor = Ctor(id: nat, params: seq<TypeId>)

  /** Behaviour of code outside the model. */
  datatype Oracles = Oracles(
    // Descriptor.describe on a raw class.
    describe: TypeId -> Description,
    // ObjectMapper.convertValue of a non-null value; None when Jackson throws IllegalArgumentException.
    convert: (Value, TypeId) -> Option<Value>,
    // Class.getConstructors, in declaration order.
    constructors: TypeId -> seq<Ctor>,
    // Constructor.newInstance; None when it throws.
    newInstance: (Ctor, seq<Value>) -> Option<Value>,
    // TypeBuilder.build of a user-supplied builder class.
    custom: (string, TypeId) -> Value,
    // Class.forName; None when the class is not found.
    findClass: string -> Option<TypeId>)

  datatype Env = Env(
    settings: SettingsData,
    typeMap: map<TypeId, ConfigRecord>,
    // The registrations of the context's current abstract-type handler.
    abstractTypes: TypeMapping,
    // The registrations of the handler the configuration-based builder captured when it was made.
    configTypes: TypeMapping,
    builders: seq<BuilderTag>,
    oracles: Oracles)

  /** Descriptor.describe(JavaType) describes the raw class. */
  function Describe(env: Env, t: TypeId): Description
  {
    env.oracles.describe(Erase(t))
  }

  /** convertValue: null converts to null; otherwise Jackson decides, or throws. */
  function Convert(env: Env, v: Value, t: TypeId): (r: Result<Value>)
    ensures v == Null ==> r == Ok(Null)
    ensures v != Null ==> (r.Err? <==> env.oracles.convert(v, t).None?)
    ensures r.Err? ==> r.error == IllegalArgument(NotConvertible)
  {
    if v == Null then Ok(Null)
    else
      var c := env.oracles.convert(v, t);
      if c.None? then Err(IllegalArgument(NotConvertible)) else Ok(c.value)
  }

  /** The candidate values of a configuration, null data read as none. */
  function DataOf(c: ConfigRecord): Data
  {
    if c.data.None? then map[] else c.data.value
  }
}

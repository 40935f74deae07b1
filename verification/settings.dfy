/**
 * Settings: the mutable bag of generation parameters shared by a context and
 * its generators. The float and double bounds are not part of this model.
 */
module Settings {
  import opened Types

  /** The generation parameters, as one value; Settings.Data() is its current content. */
  datatype SettingsData = SettingsData(
    alphaUsed: bool,
    digitsUsed: bool,
    specialsUsed: bool,
    defaultStringLength: Int32,
    maxIntValue: Int32,
    minIntValue: Int32,
    generateUndefined: bool,
    maxByteValue: Int8,
    minByteValue: Int8,
    maxShortValue: Int16,
    minShortValue: Int16,
    maxLongValue: Int64,
    minLongValue: Int64,
    minYear: Int32,
    maxYear: Int32,
    randomContainerSize: bool,
    nullOnEmptySet: bool,
    isNotNull: bool,
    defaultContainerSize: Int32,
    maxContainerSize: Int32,
    minContainerSize: Int32)

  /** The guarded setters keep container bounds and the string length non-negative. */
  predicate ValidData(d: SettingsData)
  {
    0 <= d.maxContainerSize && 0 <= d.minContainerSize && 0 <= d.defaultStringLength
  }

  /** The values getInstanceCE installs; currentYear is the clock's year. */
  function Defaults(currentYear: Int32): (d: SettingsData)
    ensures ValidData(d)
    ensures d.randomContainerSize && d.minContainerSize <= d.maxContainerSize
  {
    SettingsData(
      alphaUsed := true, digitsUsed := true, specialsUsed := false, defaultStringLength := 20,
      maxIntValue := 10000, minIntValue := 0, generateUndefined := true,
      maxByteValue := MaxInt8, minByteValue := 0, maxShortValue := 1000, minShortValue := 0,
      maxLongValue := 100000, minLongValue := 0, minYear := 1900, maxYear := currentYear,
      randomContainerSize := true, nullOnEmptySet := false, isNotNull := false,
      defaultContainerSize := 10, maxContainerSize := 10, minContainerSize := 0)
  }

  const DefaultResource: string := "/jrgen-resources"

  predicate NoDuplicates<T(==)>(s: seq<T>)
  {
    forall i, j :: 0 <= i < j < |s| ==> s[i] != s[j]
  }

  class Settings {
    /** Resource locations, a LinkedHashSet of URIs: insertion order, no duplicates. */
    var resources: seq<string>

    var alphaUsed: bool
    var digitsUsed: bool
    var specialsUsed: bool
    var defaultStringLength: Int32
    var maxIntValue: Int32
    var minIntValue: Int32
    var generateUndefined: bool
    var maxByteValue: Int8
    var minByteValue: Int8
    var maxShortValue: Int16
    var minShortValue: Int16
    var maxLongValue: Int64
    var minLongValue: Int64
    var minYear: Int32
    var maxYear: Int32
    var randomContainerSize: bool
    var nullOnEmptySet: bool
    var isNotNull: bool
    var defaultContainerSize: Int32
    var maxContainerSize: Int32
    var minContainerSize: Int32

    predicate Valid()
      reads this
    {
      ValidData(Data()) && NoDuplicates(resources)
    }

    function Data(): SettingsData
      reads this
    {
      SettingsData(
        alphaUsed, digitsUsed, specialsUsed, defaultStringLength, maxIntValue, minIntValue,
        generateUndefined, maxByteValue, minByteValue, maxShortValue, minShortValue,
        maxLongValue, minLongValue, minYear, maxYear, randomContainerSize, nullOnEmptySet,
        isNotNull, defaultContainerSize, maxContainerSize, minContainerSize)
    }

    /** getInstanceCE: the default settings and the default resource location. */
    constructor GetInstance(currentYear: Int32)
      ensures Valid()
      ensures Data() == Defaults(currentYear)
      ensures resources == [DefaultResource]
    {
      resources := [DefaultResource];

      alphaUsed := true;
      digitsUsed := true;
      specialsUsed := false;
      defaultStringLength := 20;
      maxIntValue := 10000;
      minIntValue := 0;
      generateUndefined := true;
      maxByteValue := MaxInt8;
      minByteValue := 0;
      maxShortValue := 1000;
      minShortValue := 0;
      maxLongValue := 100000;
      minLongValue := 0;
      minYear := 1900;
      maxYear := currentYear;
      randomContainerSize := true;
      nullOnEmptySet := false;
      isNotNull := false;
      defaultContainerSize := 10;
      maxContainerSize := 10;
      minContainerSize := 0;
    }

    /** Adds a resource location through the live set getResources returns. */
    method AddResource(uri: string)
      requires Valid()
      modifies this
      ensures Valid()
      ensures resources == if uri in old(resources) then old(resources) else old(resources) + [uri]
      ensures Data() == old(Data())
    {
      if uri !in resources {
        resources := resources + [uri];
      }
    }

    /** Empties the live resource set getResources returns. */
    method ClearResources()
      requires Valid()
      modifies this
      ensures Valid()
      ensures resources == []
      ensures Data() == old(Data())
    {
      resources := [];
    }

    /** Rejects a negative value and leaves the settings unchanged; otherwise stores it. */
    method SetMaxContainerSize(v: Int32) returns (s: Status)
      requires Valid()
      modifies this
      ensures Valid()
      ensures v < 0 ==> s == Threw(IllegalArgument(NegativeNumber)) && Data() == old(Data())
      ensures 0 <= v ==> s == Done && Data() == old(Data()).(maxContainerSize := v)
      ensures resources == old(resources)
    {
      if v < 0 {
        return Threw(IllegalArgument(NegativeNumber));
      }
      maxContainerSize := v;
      return Done;
    }

    /** Rejects a negative value and leaves the settings unchanged; otherwise stores it. */
    method SetMinContainerSize(v: Int32) returns (s: Status)
      requires Valid()
      modifies this
      ensures Valid()
      ensures v < 0 ==> s == Threw(IllegalArgument(NegativeNumber)) && Data() == old(Data())
      ensures 0 <= v ==> s == Done && Data() == old(Data()).(minContainerSize := v)
      ensures resources == old(resources)
    {
      if v < 0 {
        return Threw(IllegalArgument(NegativeNumber));
      }
      minContainerSize := v;
      return Done;
    }

    /** Rejects a negative value and leaves the settings unchanged; otherwise stores it. */
    method SetDefaultStringLength(v: Int32) returns (s: Status)
      requires Valid()
      modifies this
      ensures Valid()
      ensures v < 0 ==> s == Threw(IllegalArgument(NegativeNumber)) && Data() == old(Data())
      ensures 0 <= v ==> s == Done && Data() == old(Data()).(defaultStringLength := v)
      ensures resources == old(resources)
    {
      if v < 0 {
        return Threw(IllegalArgument(NegativeNumber));
      }
      defaultStringLength := v;
      return Done;
    }

    // The remaining setters store their argument unchecked: a default
    // container size may be negative, and a minimum may exceed its maximum.

    method SetDefaultContainerSize(v: Int32)
      requires Valid()
      modifies this
      ensures Valid()
      ensures Data() == old(Data()).(defaultContainerSize := v)
      ensures resources == old(resources)
    {
      defaultContainerSize := v;
    }

    method SetRandomContainerSize(v: bool)
      requires Valid()
      modifies this
      ensures Valid()
      ensures Data() == old(Data()).(randomContainerSize := v)
      ensures resources == old(resources)
    {
      randomContainerSize := v;
    }

    method SetNullOnEmptySet(v: bool)
      requires Valid()
      modifies this
      ensures Valid()
      ensures Data() == old(Data()).(nullOnEmptySet := v)
      ensures resources == old(resources)
    {
      nullOnEmptySet := v;
    }

    method SetNotNull(v: bool)
      requires Valid()
      modifies this
      ensures Valid()
      ensures Data() == old(Data()).(isNotNull := v)
      ensures resources == old(resources)
    {
      isNotNull := v;
    }

    method SetAlphaUsed(v: bool)
      requires Valid()
      modifies this
      ensures Valid()
      ensures Data() == old(Data()).(alphaUsed := v)
      ensures resources == old(resources)
    {
      alphaUsed := v;
    }

    method SetDigitsUsed(v: bool)
      requires Valid()
      modifies this
      ensures Valid()
      ensures Data() == old(Data()).(digitsUsed := v)
      ensures resources == old(resources)
    {
      digitsUsed := v;
    }

    method SetSpecialsUsed(v: bool)
      requires Valid()
      modifies this
      ensures Valid()
      ensures Data() == old(Data()).(specialsUsed := v)
      ensures resources == old(resources)
    {
      specialsUsed := v;
    }

    method SetMaxIntValue(v: Int32)
      requires Valid()
      modifies this
      ensures Valid()
      ensures Data() == old(Data()).(maxIntValue := v)
      ensures resources == old(resources)
    {
      maxIntValue := v;
    }

    method SetMinIntValue(v: Int32)
      requires Valid()
      modifies this
      ensures Valid()
      ensures Data() == old(Data()).(minIntValue := v)
      ensures resources == old(resources)
    {
      minIntValue := v;
    }

    method SetGenerateUndefined(v: bool)
      requires Valid()
      modifies this
      ensures Valid()
      ensures Data() == old(Data()).(generateUndefined := v)
      ensures resources == old(resources)
    {
      generateUndefined := v;
    }

    method SetMaxLongValue(v: Int64)
      requires Valid()
      modifies this
      ensures Valid()
      ensures Data() == old(Data()).(maxLongValue := v)
      ensures resources == old(resources)
    {
      maxLongValue := v;
    }

    method SetMinLongValue(v: Int64)
      requires Valid()
      modifies this
      ensures Valid()
      ensures Data() == old(Data()).(minLongValue := v)
      ensures resources == old(resources)
    {
      minLongValue := v;
    }

    method SetMinYear(v: Int32)
      requires Valid()
      modifies this
      ensures Valid()
      ensures Data() == old(Data()).(minYear := v)
      ensures resources == old(resources)
    {
      minYear := v;
    }

    method SetMaxYear(v: Int32)
      requires Valid()
      modifies this
      ensures Valid()
      ensures Data() == old(Data()).(maxYear := v)
      ensures resources == old(resources)
    {
      maxYear := v;
    }

    method SetMinShortValue(v: Int16)
      requires Valid()
      modifies this
      ensures Valid()
      ensures Data() == old(Data()).(minShortValue := v)
      ensures resources == old(resources)
    {
      minShortValue := v;
    }

    method SetMaxShortValue(v: Int16)
      requires Valid()
      modifies this
      ensures Valid()
      ensures Data() == old(Data()).(maxShortValue := v)
      ensures resources == old(resources)
    {
      maxShortValue := v;
    }

    method SetMaxByteValue(v: Int8)
      requires Valid()
      modifies this
      ensures Valid()
      ensures Data() == old(Data()).(maxByteValue := v)
      ensures resources == old(resources)
    {
      maxByteValue := v;
    }

    method SetMinByteValue(v: Int8)
      requires Valid()
      modifies this
      ensures Valid()
      ensures Data() == old(Data()).(minByteValue := v)
      ensures resources == old(resources)
    {
      minByteValue := v;
    }
  }
}

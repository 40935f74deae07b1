/**
 * DefaultGenerator: values of the scalar classes, drawn within the bounds
 * the settings give. Floating-point values (Float, Double, BigDecimal) are
 * produced as FloatingV without a value.
 */
module DefaultGenerator {
  import opened Types
  import opened Settings
  import Draws

  const Alpha: string := "abcdefghijklmnopqrstuvwxyz"
  const Digits: string := "0123456789"
  const Specials: string := "!@#$%^&*()-_+=}{[].,?~`|"

  /** Days per month, January first, as the generator's month table gives them (February has 28). */
  const MonthDays: seq<int> := [31, 28, 31, 30, 31, 30, 31, 31, 30, 31, 30, 31]

  predicate IsLower(c: char) { 'a' <= c <= 'z' }
  predicate IsUpper(c: char) { 'A' <= c <= 'Z' }
  predicate IsDigit(c: char) { '0' <= c <= '9' }

  /** Character.toUpperCase on a lower-case ASCII letter. */
  function ToUpper(c: char): (u: char)
    requires IsLower(c)
    ensures IsUpper(u)
  {
    (c as int - 32) as char
  }

  lemma AlphabetsAreRanges()
    ensures forall i :: 0 <= i < |Alpha| ==> IsLower(Alpha[i])
    ensures forall i :: 0 <= i < |Digits| ==> IsDigit(Digits[i])
    ensures forall i :: 0 <= i < |Specials| ==> !IsLower(Specials[i]) && !IsUpper(Specials[i]) && !IsDigit(Specials[i])
  {
  }

  /** The character classes a string may draw from, in the order the source lists them. */
  datatype CharClass = AlphaClass | DigitClass | SpecialClass

  function Choices(s: SettingsData): (cs: seq<CharClass>)
    ensures AlphaClass in cs <==> s.alphaUsed
    ensures DigitClass in cs <==> s.digitsUsed
    ensures SpecialClass in cs <==> s.specialsUsed
  {
    (if s.alphaUsed then [AlphaClass] else [])
    + (if s.digitsUsed then [DigitClass] else [])
    + (if s.specialsUsed then [SpecialClass] else [])
  }

  /** A character createString may emit under the given settings. */
  predicate Allowed(s: SettingsData, c: char)
  {
    (s.alphaUsed && (IsLower(c) || IsUpper(c)))
    || (s.digitsUsed && c in Digits)
    || (s.specialsUsed && c in Specials)
  }

  /** createCharacter: a lower-case letter or a digit. */
  method CreateCharacter() returns (c: char)
    ensures IsLower(c) || IsDigit(c)
  {
    AlphabetsAreRanges();
    var r := Draws.Choose(Alpha + Digits);
    c := r.value;
    assert c in Alpha || c in Digits;
  }

  /**
   * createString: null when no character class is enabled; otherwise
   * defaultStringLength characters, each from an enabled class, a letter
   * in either case.
   */
  method CreateString(s: SettingsData) returns (r: Option<string>)
    ensures r.None? <==> !s.alphaUsed && !s.digitsUsed && !s.specialsUsed
    ensures r.Some? ==> |r.value| == if s.defaultStringLength < 0 then 0 else s.defaultStringLength
    ensures r.Some? ==> forall i :: 0 <= i < |r.value| ==> Allowed(s, r.value[i])
  {
    var choices := Choices(s);
    if |choices| == 0 {
      return None;
    }
    AlphabetsAreRanges();
    var sb := "";
    var i := 0;
    while i < s.defaultStringLength
      invariant 0 <= i
      invariant |sb| == i
      invariant s.defaultStringLength < 0 ==> i == 0
      invariant 0 <= s.defaultStringLength ==> i <= s.defaultStringLength
      invariant forall k :: 0 <= k < |sb| ==> Allowed(s, sb[k])
    {
      var kind := Draws.Choose(choices);
      match kind.value {
        case AlphaClass =>
          var c := Draws.Choose(Alpha);
          var lower :| true;
          sb := sb + [if lower then c.value else ToUpper(c.value)];
        case DigitClass =>
          var c := Draws.Choose(Digits);
          sb := sb + [c.value];
        case SpecialClass =>
          var c := Draws.Choose(Specials);
          sb := sb + [c.value];
      }
      i := i + 1;
    }
    return Some(sb);
  }

  /** Under the default settings strings hold letters and digits only. */
  lemma DefaultStringsHaveNoSpecials(currentYear: Int32, c: char)
    requires Allowed(Defaults(currentYear), c)
    ensures IsLower(c) || IsUpper(c) || IsDigit(c)
    ensures c !in Specials
  {
    AlphabetsAreRanges();
    if c in Digits {
      var j :| 0 <= j < |Digits| && Digits[j] == c;
    }
  }

  /** Calendar fields a generated date may carry: the year within the bounds, a real day of the month. */
  predicate ValidDate(s: SettingsData, d: Value)
  {
    d.DateV?
    && s.minYear <= d.year <= s.maxYear
    && 0 <= d.month < 12
    && 1 <= d.day <= MonthDays[d.month]
    && 0 <= d.hour < 24
    && 0 <= d.minute < 60
  }

  /**
   * createDate: both year bounds must be non-negative and ordered; the
   * month is drawn first, then a day of that month, an hour and a minute.
   * The day is drawn in [1, days of the month] (see DateAsWritten).
   */
  method CreateDate(s: SettingsData) returns (r: Result<Value>)
    ensures s.minYear < 0 || s.maxYear < 0 ==> r == Err(IllegalArgument(NegativeNumber))
    ensures 0 <= s.minYear && 0 <= s.maxYear && s.maxYear < s.minYear ==> r == Err(IllegalArgument(MinGreaterThanMax))
    ensures 0 <= s.minYear <= s.maxYear ==> r.Ok? && ValidDate(s, r.value)
  {
    if s.minYear < 0 || s.maxYear < 0 {
      return Err(IllegalArgument(NegativeNumber));
    }
    var year := Draws.NumberFromRange(s.minYear, s.maxYear);
    if year.Err? {
      return Err(year.error);
    }
    var month := Draws.NextInt(12);
    var day := Draws.NextInt(MonthDays[month.value]);
    var hour := Draws.NextInt(24);
    var minute := Draws.NextInt(60);
    return Ok(DateV(year.value, month.value, day.value + 1, hour.value, minute.value));
  }

  /** Gregorian leap years. */
  predicate IsLeap(y: int)
  {
    (y % 4 == 0 && y % 100 != 0) || y % 400 == 0
  }

  /** Days of a month in the real calendar (month 0-based). */
  function DaysIn(y: int, m: int): int
    requires 0 <= m < 12
  {
    if m == 1 && IsLeap(y) then 29 else MonthDays[m]
  }

  /**
   * A lenient calendar's reading of day 0 of a month: the last day of the
   * previous month, which for January lies in the previous year.
   */
  function Lenient(d: Value): Value
    requires d.DateV? && 0 <= d.month < 12
  {
    if d.day != 0 then d
    else if d.month == 0 then d.(year := d.year - 1, month := 11, day := 31)
    else d.(month := d.month - 1, day := DaysIn(d.year, d.month - 1))
  }

  /**
   * createDate as written: the index nextInt(days) lands in the 1-based
   * DAY_OF_MONTH field, and the lenient calendar interprets it.
   */
  function DateAsWritten(year: int, month: int, dayPick: int, hour: int, minute: int): (r: Value)
    requires 0 <= month < 12 && 0 <= dayPick < MonthDays[month]
    ensures r.DateV? && 0 <= r.month < 12 && 1 <= r.day <= DaysIn(r.year, r.month)
    ensures dayPick != 0 ==> r == DateV(year, month, dayPick, hour, minute)
    ensures dayPick == 0 ==> r.day == DaysIn(r.year, r.month) && (r.year, r.month) != (year, month)
  {
    Lenient(DateV(year, month, dayPick, hour, minute))
  }

  /**
   * As written, the draw month = January, day index = 0 in the year minYear
   * yields 31 December of minYear - 1, outside the configured years.
   */
  lemma AsWrittenDateLeavesYearRange(s: SettingsData)
    ensures DateAsWritten(s.minYear, 0, 0, 0, 0) == DateV(s.minYear - 1, 11, 31, 0, 0)
    ensures !ValidDate(s, DateAsWritten(s.minYear, 0, 0, 0, 0))
  {
  }

  /** As written, the last day of a month is never drawn as a day of that month. */
  lemma {:induction false} AsWrittenMissesLastDay(year: int, month: int, dayPick: int, hour: int, minute: int)
    requires 0 <= month < 12 && 0 <= dayPick < MonthDays[month]
    ensures DateAsWritten(year, month, dayPick, hour, minute) != DateV(year, month, MonthDays[month], hour, minute)
  {
  }

  /** What createValue promises for a value of a supported scalar class. */
  predicate Conforms(s: SettingsData, c: ScalarClass, v: Value)
  {
    match c
    case IntegerC => v.IntV? && s.minIntValue <= v.i <= s.maxIntValue
    case NumberC => v.IntV? && s.minIntValue <= v.i <= s.maxIntValue
    case BigIntegerC => v.IntV? && 0 <= v.i < MaxInt32
    case ByteC => v.IntV? && s.minByteValue <= v.i <= s.maxByteValue
    case ShortC => v.IntV? && s.minShortValue <= v.i <= s.maxShortValue
    case LongC => v.IntV? && s.minLongValue <= v.i <= s.maxLongValue
    case CharacterC => v.CharV? && (IsLower(v.c) || IsDigit(v.c))
    case BooleanC => v.BoolV?
    case DateC => ValidDate(s, v)
    case StringC => StringConforms(s, v)
    case ObjectC => StringConforms(s, v)
    case BigDecimalC => v == FloatingV(BigDecimalC)
    case DoubleC => v == FloatingV(DoubleC)
    case FloatC => v == FloatingV(FloatC)
  }

  predicate StringConforms(s: SettingsData, v: Value)
  {
    if !s.alphaUsed && !s.digitsUsed && !s.specialsUsed then v == Null
    else
      v.StrV? && |v.s| == (if s.defaultStringLength < 0 then 0 else s.defaultStringLength)
      && forall i :: 0 <= i < |v.s| ==> Allowed(s, v.s[i])
  }

  /** Settings under which createValue for class c throws: inverted or negative bounds. */
  predicate BadBounds(s: SettingsData, c: ScalarClass)
  {
    match c
    case IntegerC => s.maxIntValue < s.minIntValue
    case NumberC => s.maxIntValue < s.minIntValue
    case ByteC => s.maxByteValue < s.minByteValue
    case ShortC => s.maxShortValue < s.minShortValue
    case LongC => s.maxLongValue < s.minLongValue
    case DateC => s.minYear < 0 || s.maxYear < 0 || s.maxYear < s.minYear
    case _ => false
  }

  /**
   * createValue: dispatch on the exact class. Every exception is an
   * IllegalArgumentException: an unsupported class, or bounds in the
   * settings that admit no value.
   */
  method CreateValue(s: SettingsData, t: TypeId) returns (r: Result<Value>)
    ensures !t.Scalar? ==> r == Err(IllegalArgument(UnsupportedType))
    ensures t.Scalar? ==> (r.Err? <==> BadBounds(s, t.sc))
    ensures r.Err? ==> r.error.IllegalArgument?
    ensures r.Ok? ==> t.Scalar? && Conforms(s, t.sc, r.value)
  {
    if !t.Scalar? {
      return Err(IllegalArgument(UnsupportedType));
    }
    match t.sc
    case IntegerC =>
      var n := Draws.NumberFromRange(s.minIntValue, s.maxIntValue);
      r := if n.Err? then Err(n.error) else Ok(IntV(n.value));
    case NumberC =>
      var n := Draws.NumberFromRange(s.minIntValue, s.maxIntValue);
      r := if n.Err? then Err(n.error) else Ok(IntV(n.value));
    case BigDecimalC =>
      r := Ok(FloatingV(BigDecimalC));
    case BigIntegerC =>
      var n := Draws.NextInt(MaxInt32);
      r := Ok(IntV(n.value));
    case ByteC =>
      var n := Draws.NumberFromRange(s.minByteValue, s.maxByteValue);
      r := if n.Err? then Err(n.error) else Ok(IntV(n.value));
    case CharacterC =>
      var c := CreateCharacter();
      r := Ok(CharV(c));
    case ShortC =>
      var n := Draws.NumberFromRange(s.minShortValue, s.maxShortValue);
      r := if n.Err? then Err(n.error) else Ok(IntV(n.value));
    case LongC =>
      var n := Draws.NumberFromRange(s.minLongValue, s.maxLongValue);
      r := if n.Err? then Err(n.error) else Ok(IntV(n.value));
    case DoubleC =>
      r := Ok(FloatingV(DoubleC));
    case FloatC =>
      r := Ok(FloatingV(FloatC));
    case DateC =>
      r := CreateDate(s);
    case BooleanC =>
      var b :| true;
      r := Ok(BoolV(b));
    case StringC =>
      var str := CreateString(s);
      r := Ok(if str.None? then Null else StrV(str.value));
    case ObjectC =>
      var str := CreateString(s);
      r := Ok(if str.None? then Null else StrV(str.value));
  }
}

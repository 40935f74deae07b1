/**
 * ImmutableTypeBuilder: builds an object through a public constructor from
 * a configuration whose property names are constructor argument positions
 * ("0", "1", ...). It reads configurations only and never calls back into
 * the workflow.
 */
module ImmutableBuilder {
  import opened Types
  import opened Configuration
  import opened Environment
  import Draws

  predicate IsDigitChar(c: char) { '0' <= c <= '9' }

  predicate AllDigits(s: string)
  {
    forall i :: 0 <= i < |s| ==> IsDigitChar(s[i])
  }

  /** The value of a string of decimal digits. */
  function DigitsValue(s: string): (n: nat)
    requires AllDigits(s)
  {
    if |s| == 0 then 0 else DigitsValue(s[..|s| - 1]) * 10 + (s[|s| - 1] as int - '0' as int)
  }

  /**
   * Integer.valueOf(String): an optional sign, then at least one decimal
   * digit, within the int range; None is a NumberFormatException.
   */
  function ParseInt(s: string): (r: Option<int>)
    ensures r.Some? ==> MinInt32 <= r.value <= MaxInt32
  {
    if |s| == 0 then None
    else
      var signed := s[0] == '-' || s[0] == '+';
      var digits := if signed then s[1..] else s;
      if |digits| == 0 || !AllDigits(digits) then None
      else
        var v: int := if s[0] == '-' then -(DigitsValue(digits) as int) else DigitsValue(digits);
        if MinInt32 <= v <= MaxInt32 then Some(v) else None
  }

  /** Integer.toString of a non-negative number. */
  function ToDecimal(n: nat): (s: string)
    ensures |s| > 0 && AllDigits(s)
  {
    if n < 10 then [('0' as int + n) as char]
    else ToDecimal(n / 10) + [('0' as int + n % 10) as char]
  }

  lemma {:induction false} DigitsValueOfDecimal(n: nat)
    ensures DigitsValue(ToDecimal(n)) == n
  {
    if 10 <= n {
      var s := ToDecimal(n);
      assert s[..|s| - 1] == ToDecimal(n / 10);
      DigitsValueOfDecimal(n / 10);
    }
  }

  /** Parsing reads back the decimal form of every non-negative int. */
  lemma ParseIntOfDecimal(n: nat)
    requires n <= MaxInt32
    ensures ParseInt(ToDecimal(n)) == Some(n)
  {
    DigitsValueOfDecimal(n);
  }

  /** The array position a property name denotes, when it parses and lies in [0, size). */
  predicate ValidIndex(k: string, size: int)
  {
    ParseInt(k).Some? && 0 <= ParseInt(k).value < size
  }

  /** A property that takes part: it has candidates. */
  predicate Drawn(data: Data, k: string)
  {
    k in data && |data[k]| > 0
  }

  /**
   * The argument array configDataToArray fills: each slot that some drawn
   * property names holds a candidate of such a property (of the last one
   * written when several name it), every other slot null.
   */
  ghost predicate SlotsFilled(data: Data, slots: seq<Value>)
  {
    |slots| == |data|
    && forall i :: 0 <= i < |slots| ==>
         if exists k :: Drawn(data, k) && ParseInt(k) == Some(i)
         then FilledFrom(data, slots, i)
         else slots[i] == Null
  }

  /** Slot i holds a candidate of a drawn property whose name denotes i. */
  ghost predicate FilledFrom(data: Data, slots: seq<Value>, i: int)
    requires 0 <= i < |slots|
  {
    exists k :: Drawn(data, k) && ParseInt(k) == Some(i) && slots[i] in data[k]
  }

  /**
   * configDataToArray: null for empty data; otherwise an array with one slot
   * per property. Each property with candidates draws one and stores it at
   * the position its name denotes, in no particular order; a name that is
   * not a number or a position outside the array throws. Properties
   * without candidates are skipped, whatever their names.
   */
  method ConfigDataToArray(data: Data) returns (r: Result<Option<seq<Value>>>)
    ensures |data| == 0 ==> r == Ok(None)
    ensures r.Err? <==> exists k :: Drawn(data, k) && !ValidIndex(k, |data|)
    ensures r.Err? ==> r.error == IllegalArgument(NotANumber) || r.error == IndexOutOfBounds
    ensures r.Ok? && 0 < |data| ==> r.value.Some? && SlotsFilled(data, r.value.value)
  {
    if |data| == 0 {
      return Ok(None);
    }
    var slots := seq(|data|, _ => Null);
    var todo := data.Keys;
    while todo != {}
      invariant todo <= data.Keys
      invariant |slots| == |data|
      invariant forall k :: Drawn(data, k) && k !in todo ==> ValidIndex(k, |data|)
      invariant forall i :: 0 <= i < |slots| ==>
                  if exists k :: Drawn(data, k) && k !in todo && ParseInt(k) == Some(i)
                  then exists k :: Drawn(data, k) && k !in todo && ParseInt(k) == Some(i) && slots[i] in data[k]
                  else slots[i] == Null
      decreases |todo|
    {
      var k :| k in todo;
      if |data[k]| > 0 {
        var value := Draws.Choose(data[k]);
        var idx := ParseInt(k);
        if idx.None? {
          assert Drawn(data, k) && !ValidIndex(k, |data|);
          return Err(IllegalArgument(NotANumber));
        }
        if !(0 <= idx.value < |slots|) {
          assert Drawn(data, k) && !ValidIndex(k, |data|);
          return Err(IndexOutOfBounds);
        }
        slots := slots[idx.value := value.value];
      }
      todo := todo - {k};
    }
    return Ok(Some(slots));
  }

  /** Properties named "0" .. "n-1", each with candidates, fill every slot from its own property. */
  lemma PositionalDataFillsEverySlot(data: Data, slots: seq<Value>)
    requires |data| <= MaxInt32
    requires forall i :: 0 <= i < |data| ==> Drawn(data, ToDecimal(i))
    requires SlotsFilled(data, slots)
    ensures forall i :: 0 <= i < |slots| ==> FilledFrom(data, slots, i)
  {
    forall i | 0 <= i < |slots|
      ensures FilledFrom(data, slots, i)
    {
      ParseIntOfDecimal(i);
      var k := ToDecimal(i);
      assert Drawn(data, k) && ParseInt(k) == Some(i);
    }
  }

  /** Converting every argument to its parameter class; the first failure aborts. */
  function ConvertAll(env: Env, objs: seq<Value>, params: seq<TypeId>): (r: Result<seq<Value>>)
    requires |objs| == |params|
    ensures r.Ok? ==> |r.value| == |objs|
    ensures r.Ok? <==> forall i :: 0 <= i < |objs| ==> Convert(env, objs[i], params[i]).Ok?
    ensures r.Ok? ==> forall i :: 0 <= i < |objs| ==> r.value[i] == Convert(env, objs[i], params[i]).value
  {
    if |objs| == 0 then Ok([])
    else
      var head := Convert(env, objs[0], params[0]);
      var tail := ConvertAll(env, objs[1..], params[1..]);
      if head.Err? then Err(head.error)
      else if tail.Err? then
        assert !Convert(env, objs[1..][0], params[1..][0]).Ok? || exists i :: 0 <= i < |objs| - 1 && !Convert(env, objs[1..][i], params[1..][i]).Ok?;
        Err(tail.error)
      else Ok([head.value] + tail.value)
  }

  /** One constructor's attempt: matching arity, every argument converted, newInstance succeeding. */
  function Attempt(env: Env, c: Ctor, objs: seq<Value>): Option<Value>
  {
    if |c.params| != |objs| then None
    else
      var args := ConvertAll(env, objs, c.params);
      if args.Err? then None else env.oracles.newInstance(c, args.value)
  }

  /** The object of the first constructor, in order, whose attempt succeeds. */
  function FirstConstructed(env: Env, ctors: seq<Ctor>, objs: seq<Value>): Option<Value>
  {
    if |ctors| == 0 then None
    else
      var a := Attempt(env, ctors[0], objs);
      if a.Some? then a else FirstConstructed(env, ctors[1..], objs)
  }

  /**
   * The object comes from the first successful constructor: every earlier
   * one failed, and nothing is built when no constructor has the arity.
   */
  lemma {:induction false} FirstConstructedIsFirstSuccess(env: Env, ctors: seq<Ctor>, objs: seq<Value>)
    ensures FirstConstructed(env, ctors, objs).Some? <==>
              exists i :: 0 <= i < |ctors| && Attempt(env, ctors[i], objs).Some?
    ensures FirstConstructed(env, ctors, objs).Some? ==>
              exists i :: 0 <= i < |ctors| && Attempt(env, ctors[i], objs) == FirstConstructed(env, ctors, objs)
                          && |ctors[i].params| == |objs|
                          && forall j :: 0 <= j < i ==> Attempt(env, ctors[j], objs).None?
  {
    if |ctors| > 0 && Attempt(env, ctors[0], objs).None? {
      FirstConstructedIsFirstSuccess(env, ctors[1..], objs);
      if FirstConstructed(env, ctors, objs).Some? {
        var i :| 0 <= i < |ctors[1..]| && Attempt(env, ctors[1..][i], objs) == FirstConstructed(env, ctors, objs)
                 && |ctors[1..][i].params| == |objs|
                 && forall j :: 0 <= j < i ==> Attempt(env, ctors[1..][j], objs).None?;
        assert Attempt(env, ctors[i + 1], objs) == FirstConstructed(env, ctors, objs);
        assert forall j :: 1 <= j < i + 1 ==> ctors[j] == ctors[1..][j - 1];
      }
      if exists i :: 0 <= i < |ctors| && Attempt(env, ctors[i], objs).Some? {
        var i :| 0 <= i < |ctors| && Attempt(env, ctors[i], objs).Some?;
        assert i != 0;
        assert ctors[1..][i - 1] == ctors[i];
      }
    }
  }

  /**
   * convertArrayToObject: tries the public constructors in order; for each
   * of the right arity converts every argument and instantiates; a failure
   * of either moves on to the next constructor. Null when none succeeds.
   */
  method ConvertArrayToObject(env: Env, objs: seq<Value>, t: TypeId) returns (v: Value)
    ensures var f := FirstConstructed(env, env.oracles.constructors(Erase(t)), objs);
            v == if f.Some? then f.value else Null
  {
    var ctors := env.oracles.constructors(Erase(t));
    var i := 0;
    while i < |ctors|
      invariant 0 <= i <= |ctors|
      invariant FirstConstructed(env, ctors, objs) == FirstConstructed(env, ctors[i..], objs)
    {
      var c := ctors[i];
      assert ctors[i..][1..] == ctors[i + 1..];
      if |c.params| == |objs| {
        var params := [];
        var j := 0;
        var failed := false;
        while j < |objs| && !failed
          decreases |objs| - j, if failed then 0 else 1
          invariant 0 <= j <= |objs|
          invariant !failed ==> |params| == j
          invariant !failed ==>
                      forall m :: 0 <= m < j ==>
                        Convert(env, objs[m], c.params[m]).Ok? && params[m] == Convert(env, objs[m], c.params[m]).value
          invariant failed ==> ConvertAll(env, objs, c.params).Err?
        {
          var p := Convert(env, objs[j], c.params[j]);
          if p.Err? {
            failed := true;
          } else {
            params := params + [p.value];
            j := j + 1;
          }
        }
        if !failed {
          assert params == ConvertAll(env, objs, c.params).value;
          var made := env.oracles.newInstance(c, params);
          if made.Some? {
            return made.value;
          }
        }
      }
      i := i + 1;
    }
    return Null;
  }

  /** What convertArrayToObject makes of the drawn arguments for t: the first constructed object, or null. */
  function Constructed(env: Env, t: TypeId, objs: seq<Value>): Value
  {
    var f := FirstConstructed(env, env.oracles.constructors(Erase(t)), objs);
    if f.Some? then f.value else Null
  }

  /**
   * ImmutableTypeBuilder.build: only for a type with a configuration of its
   * own (exact type); null when the configuration has no data; otherwise the
   * object the first workable constructor makes from the drawn arguments.
   */
  method ImmutableBuild(env: Env, t: TypeId) returns (r: Result<Value>, ghost slots: seq<Value>)
    ensures t !in env.typeMap ==> r == Ok(Null)
    ensures t in env.typeMap && |DataOf(env.typeMap[t])| == 0 ==> r == Ok(Null)
    ensures t in env.typeMap ==>
              (r.Err? <==> exists k :: Drawn(DataOf(env.typeMap[t]), k) && !ValidIndex(k, |DataOf(env.typeMap[t])|))
    ensures r.Ok? && r.value != Null ==>
              t in env.typeMap && SlotsFilled(DataOf(env.typeMap[t]), slots)
              && FirstConstructed(env, env.oracles.constructors(Erase(t)), slots) == Some(r.value)
    ensures t in env.typeMap && 0 < |DataOf(env.typeMap[t])| && r.Ok? ==>
              SlotsFilled(DataOf(env.typeMap[t]), slots) && r.value == Constructed(env, t, slots)
  {
    slots := [];
    if t !in env.typeMap {
      return Ok(Null), slots;
    }
    var data := DataOf(env.typeMap[t]);
    var objects := ConfigDataToArray(data);
    if objects.Err? {
      return Err(objects.error), slots;
    }
    if objects.value.None? || |objects.value.value| == 0 {
      return Ok(Null), slots;
    }
    var objs := objects.value.value;
    slots := objs;
    var v := ConvertArrayToObject(env, objs, t);
    return Ok(v), slots;
  }
}

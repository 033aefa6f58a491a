/**
 * `ConfigObj`: typed getters over a flat string-to-string mapping.
 *
 * Every getter resolves a key to the stored string, or to the caller's
 * default, and then checks and converts it. Any failure goes through
 * `Error`, which prefixes the message with the object's file name: with a
 * file name the message is logged and the process aborts; without one
 * (every domain accessor object) the concatenation `None + ','` raises a
 * `TypeError` before anything is logged.
 */
module ConfigObject {
  import opened Outcomes
  import opened Builtins
  import PyText

  /** A value passes `_checkIntNumber`. */
  predicate IsIntValue(b: Builtins, v: Value) {
    b.isNumber(v) && b.isInt(v)
  }

  /** A default that `Int` accepts: none, or one that passes `_checkIntNumber`. */
  predicate IntDefaultOk(b: Builtins, default: Option<Value>) {
    default.None? || IsIntValue(b, default.value)
  }

  /** A default that `Float` accepts: none, or one that passes `_checkFloatNumber`. */
  predicate FloatDefaultOk(b: Builtins, default: Option<Value>) {
    default.None? || b.isNumber(default.value)
  }

  /** `assert default is None or default >= 0` (Python 3 refuses to
      compare a string with a number). */
  function CheckDefaultNotNegative(default: Option<Value>): (r: Outcome<()>)
    ensures r.Ok? <==> match default
                       case None => true
                       case Some(IntV(i)) => i >= 0
                       case Some(FloatV(x)) => x >= 0.0
                       case Some(Str(_)) => false
    ensures !r.Ok? ==> (r.TypeErr? <==> default.Some? && default.value.Str?)
    ensures !r.Ok? ==> r.TypeErr? || r.AssertErr?
  {
    match default
    case None => Ok(())
    case Some(Str(_)) => TypeErr
    case Some(IntV(i)) => if i >= 0 then Ok(()) else AssertErr
    case Some(FloatV(x)) => if x >= 0.0 then Ok(()) else AssertErr
  }

  /** A negative default is the only one that fails the assertion. */
  predicate DefaultNotNegative(default: Option<Value>) {
    CheckDefaultNotNegative(default).Ok?
  }

  datatype ConfigObj = ConfigObj(fileName: Option<string>, dict: map<string, string>) {

    /** `setDict`: the mapping is replaced, the file name kept. */
    function SetDict(d: map<string, string>): (c: ConfigObj)
      ensures c.dict == d && c.fileName == fileName
    {
      this.(dict := d)
    }

    /** `_error0`: log the message, then abort. */
    static function Error0<T>(msg: string): (r: Outcome<T>)
      ensures r.Abort? && r.msg == msg
    {
      Abort(msg)
    }

    /** `_error`: a failure about `key`, reported under the file name. */
    function Error<T>(key: string, msg: string): (r: Outcome<T>)
      ensures fileName.None? <==> r.TypeErr?
      ensures fileName.Some? ==> r == Abort(fileName.value + "," + key + ": " + msg)
    {
      match fileName
      case None => TypeErr
      case Some(f) => Error0(f + "," + key + ": " + msg)
    }

    /** `_keyMissing` */
    function KeyMissing<T>(key: string): (r: Outcome<T>)
      ensures !r.Ok?
      ensures fileName.None? <==> r.TypeErr?
      ensures fileName.Some? ==> r == Abort(fileName.value + "," + key + ": Key missing")
    {
      Error(key, "Key missing")
    }

    /** `rangeError`: a value of `key` outside `[a,b]`. */
    function RangeError<T>(key: string, a: string, b: string): (r: Outcome<T>)
      ensures fileName.None? <==> r.TypeErr?
      ensures fileName.Some? ==> r == Abort(fileName.value + "," + key + ": Value outside [" + a + "," + b + "]")
    {
      Error(key, "Value outside [" + a + "," + b + "]")
    }

    /** `rangeError2`: bypasses `_error`, so it aborts whatever the file name. */
    function RangeError2<T>(key1: string, key2: string): (r: Outcome<T>)
      ensures r.Abort? && r.msg == "Range error: " + key1 + " > " + key2
    {
      Error0("Range error: " + key1 + " > " + key2)
    }

    /** `_checkFloatNumber` */
    function CheckFloatNumber(b: Builtins, key: string, v: Value): (r: Outcome<real>)
      ensures r.Ok? <==> b.isNumber(v)
      ensures r.Ok? ==> r.value == b.toFloat(v)
      ensures !r.Ok? ==> r == Error(key, "Key is not a number")
    {
      if !b.isNumber(v) then Error(key, "Key is not a number") else Ok(b.toFloat(v))
    }

    /** `_checkIntNumber`: the number test comes before the integer test. */
    function CheckIntNumber(b: Builtins, key: string, v: Value): (r: Outcome<int>)
      ensures r.Ok? <==> IsIntValue(b, v)
      ensures r.Ok? ==> r.value == b.toInt(v)
      ensures !b.isNumber(v) ==> r == Error(key, "Key is not a number")
      ensures b.isNumber(v) && !b.isInt(v) ==> r == Error(key, "Key is not integer number")
    {
      if !b.isNumber(v) then Error(key, "Key is not a number")
      else if !b.isInt(v) then Error(key, "Key is not integer number")
      else Ok(b.toInt(v))
    }

    /** `String` (and its alias `Str`): stored value, else default, else missing. */
    function String(key: string, default: Option<Value>): (r: Outcome<Value>)
      ensures r.Ok? <==> key in dict || default.Some?
      ensures key in dict ==> r == Ok(Str(dict[key]))
      ensures key !in dict && default.Some? ==> r == Ok(default.value)
      ensures key !in dict && default.None? ==> r == KeyMissing(key)
    {
      if key in dict then Ok(Str(dict[key]))
      else if default.Some? then Ok(default.value)
      else KeyMissing(key)
    }

    /** The default of `Int`, checked and converted with `int()` whether or
        not the key is present. */
    function IntDefault(b: Builtins, key: string, default: Option<Value>): (r: Outcome<Option<Value>>)
      ensures r.Ok? <==> IntDefaultOk(b, default)
      ensures default.None? ==> r == Ok(None)
      ensures default.Some? && r.Ok? ==> r.value == Some(IntV(b.toInt(default.value)))
      ensures default.Some? && !b.isNumber(default.value) ==> r == Error(key, "Key is not a number")
      ensures default.Some? && b.isNumber(default.value) && !b.isInt(default.value)
              ==> r == Error(key, "Key is not integer number")
    {
      match default
      case None => Ok(None)
      case Some(d) =>
        var n :- CheckIntNumber(b, key, d);
        Ok(Some(IntV(n)))
    }

    /** The default of `Float`, checked and converted with `float()`. */
    function FloatDefault(b: Builtins, key: string, default: Option<Value>): (r: Outcome<Option<Value>>)
      ensures r.Ok? <==> FloatDefaultOk(b, default)
      ensures default.None? ==> r == Ok(None)
      ensures default.Some? && r.Ok? ==> r.value == Some(FloatV(b.toFloat(default.value)))
      ensures default.Some? && !r.Ok? ==> r == Error(key, "Key is not a number")
    {
      match default
      case None => Ok(None)
      case Some(d) =>
        var x :- CheckFloatNumber(b, key, d);
        Ok(Some(FloatV(x)))
    }

    /** `Int` */
    function Int(b: Builtins, key: string, default: Option<Value>): (r: Outcome<int>)
      ensures !IntDefaultOk(b, default) ==> !r.Ok?
      ensures key in dict ==> (r.Ok? <==> IntDefaultOk(b, default) && IsIntValue(b, Str(dict[key])))
      ensures key in dict && r.Ok? ==> r.value == b.toInt(Str(dict[key]))
      ensures key !in dict && default.None? ==> r == KeyMissing(key)
      ensures !r.Ok? ==> (r.Abort? <==> fileName.Some?)
      ensures !r.Ok? ==> r.Abort? || r.TypeErr?
      ensures !IntDefaultOk(b, default) ==> r == IntDefault(b, key, default).PropagateFailure()
      ensures key in dict && IntDefaultOk(b, default) ==> r == CheckIntNumber(b, key, Str(dict[key]))
    {
      var val :- IntDefault(b, key, default);
      var s :- String(key, val);
      CheckIntNumber(b, key, s)
    }

    /** `UInt`: asserts that the default is not negative, then is `Int`;
        `maxVal` is accepted and never used. */
    function UInt(b: Builtins, key: string, maxVal: Option<int>, default: Option<Value>): (r: Outcome<int>)
      ensures DefaultNotNegative(default) ==> r == Int(b, key, default)
      ensures !DefaultNotNegative(default) ==> r == if default.value.Str? then TypeErr else AssertErr
    {
      var _ :- CheckDefaultNotNegative(default);
      Int(b, key, default)
    }

    /** The check `UInt` evidently meant: the resolved value lies in
        `[0, maxVal]`, and range failures are reported like `UFloat`'s. */
    function UIntChecked(b: Builtins, key: string, maxVal: Option<int>, default: Option<Value>): (r: Outcome<int>)
      ensures r.Ok? ==> 0 <= r.value && (maxVal.Some? ==> r.value <= maxVal.value)
      ensures r.Ok? <==> UInt(b, key, maxVal, default).Ok? && InRange(UInt(b, key, maxVal, default).value, maxVal)
      ensures r.Ok? ==> r == UInt(b, key, maxVal, default)
    {
      var val :- UInt(b, key, maxVal, default);
      if val < 0 then Error(key, PyText.IntStr(val) + " < 0")
      else if maxVal.Some? && val > maxVal.value then Error(key, PyText.IntStr(val) + " > " + PyText.IntStr(maxVal.value))
      else Ok(val)
    }

    static predicate InRange(v: int, maxVal: Option<int>) {
      0 <= v && (maxVal.Some? ==> v <= maxVal.value)
    }

    /** `Float` */
    function Float(b: Builtins, key: string, default: Option<Value>): (r: Outcome<real>)
      ensures !FloatDefaultOk(b, default) ==> !r.Ok?
      ensures key in dict ==> (r.Ok? <==> FloatDefaultOk(b, default) && b.isNumber(Str(dict[key])))
      ensures key in dict && r.Ok? ==> r.value == b.toFloat(Str(dict[key]))
      ensures key !in dict && default.None? ==> r == KeyMissing(key)
      ensures !r.Ok? ==> (r.Abort? <==> fileName.Some?)
      ensures !r.Ok? ==> r.Abort? || r.TypeErr?
      ensures !FloatDefaultOk(b, default) ==> r == FloatDefault(b, key, default).PropagateFailure()
      ensures key in dict && FloatDefaultOk(b, default) ==> r == CheckFloatNumber(b, key, Str(dict[key]))
    {
      var val :- FloatDefault(b, key, default);
      var s :- String(key, val);
      CheckFloatNumber(b, key, s)
    }

    /** `UFloat` */
    function UFloat(b: Builtins, key: string, maxVal: Option<real>, default: Option<Value>): (r: Outcome<real>)
      ensures r.Ok? ==> 0.0 <= r.value && (maxVal.Some? ==> r.value <= maxVal.value)
      ensures r.Ok? ==> r == Float(b, key, default)
      ensures r.Ok? <==> DefaultNotNegative(default) && Float(b, key, default).Ok?
                         && 0.0 <= Float(b, key, default).value
                         && (maxVal.Some? ==> Float(b, key, default).value <= maxVal.value)
      ensures DefaultNotNegative(default) && Float(b, key, default).Ok? && Float(b, key, default).value < 0.0
              ==> r == Error(key, b.showFloat(Float(b, key, default).value) + " < 0.0")
      ensures DefaultNotNegative(default) && Float(b, key, default).Ok? && 0.0 <= Float(b, key, default).value
              && maxVal.Some? && Float(b, key, default).value > maxVal.value
              ==> r == Error(key, b.showFloat(Float(b, key, default).value) + " > " + b.showFloat(maxVal.value))
      ensures !DefaultNotNegative(default) ==> r == if default.value.Str? then TypeErr else AssertErr
      ensures DefaultNotNegative(default) && !Float(b, key, default).Ok? ==> r == Float(b, key, default).PropagateFailure()
      ensures DefaultNotNegative(default) && !r.Ok? ==> (r.Abort? <==> fileName.Some?)
    {
      var _ :- CheckDefaultNotNegative(default);
      var val :- Float(b, key, default);
      if val < 0.0 then Error(key, b.showFloat(val) + " < 0.0")
      else if maxVal.Some? && val > maxVal.value then Error(key, b.showFloat(val) + " > " + b.showFloat(maxVal.value))
      else Ok(val)
    }

    /** `Bool`: 0 is false, 1 is true, any other integer is out of range. */
    function Bool(b: Builtins, key: string, default: Option<Value>): (r: Outcome<bool>)
      ensures r.Ok? <==> Int(b, key, default).Ok? && Int(b, key, default).value in {0, 1}
      ensures r.Ok? ==> (r.value <==> Int(b, key, default).value == 1)
      ensures Int(b, key, default).Ok? && Int(b, key, default).value !in {0, 1} ==> r == RangeError(key, "0", "1")
      ensures !Int(b, key, default).Ok? ==> r == Int(b, key, default).PropagateFailure()
      ensures !r.Ok? ==> (r.Abort? <==> fileName.Some?)
    {
      var val :- Int(b, key, default);
      if val == 0 then Ok(false)
      else if val == 1 then Ok(true)
      else RangeError(key, "0", "1")
    }

    /** `IntRange`: two required integers, the first not above the second. */
    function IntRange(b: Builtins, key1: string, key2: string): (r: Outcome<(int, int)>)
      ensures r.Ok? ==> r.value.0 <= r.value.1
      ensures r.Ok? <==> Int(b, key1, None).Ok? && Int(b, key2, None).Ok?
                         && Int(b, key1, None).value <= Int(b, key2, None).value
      ensures r.Ok? ==> r.value == (Int(b, key1, None).value, Int(b, key2, None).value)
      ensures Int(b, key1, None).Ok? && Int(b, key2, None).Ok? && Int(b, key1, None).value > Int(b, key2, None).value
              ==> r == Abort("Range error: " + key1 + " > " + key2)
      ensures !Int(b, key1, None).Ok? ==> r == Int(b, key1, None).PropagateFailure()
      ensures Int(b, key1, None).Ok? && !Int(b, key2, None).Ok? ==> r == Int(b, key2, None).PropagateFailure()
      ensures fileName.Some? && !r.Ok? ==> r.Abort?
    {
      var a :- Int(b, key1, None);
      var c :- Int(b, key2, None);
      if a > c then RangeError2(key1, key2) else Ok((a, c))
    }

    /** `FloatRange`: two required numbers, the first not above the second. */
    function FloatRange(b: Builtins, key1: string, key2: string): (r: Outcome<(real, real)>)
      ensures r.Ok? ==> r.value.0 <= r.value.1
      ensures r.Ok? <==> Float(b, key1, None).Ok? && Float(b, key2, None).Ok?
                         && Float(b, key1, None).value <= Float(b, key2, None).value
      ensures r.Ok? ==> r.value == (Float(b, key1, None).value, Float(b, key2, None).value)
      ensures Float(b, key1, None).Ok? && Float(b, key2, None).Ok? && Float(b, key1, None).value > Float(b, key2, None).value
              ==> r == Abort("Range error: " + key1 + " > " + key2)
      ensures !Float(b, key1, None).Ok? ==> r == Float(b, key1, None).PropagateFailure()
      ensures Float(b, key1, None).Ok? && !Float(b, key2, None).Ok? ==> r == Float(b, key2, None).PropagateFailure()
      ensures fileName.Some? && !r.Ok? ==> r.Abort?
    {
      var a :- Float(b, key1, None);
      var c :- Float(b, key2, None);
      if a > c then RangeError2(key1, key2) else Ok((a, c))
    }
  }
}

/** Facts about the getters that rest on what `Sound` says of the primitives. */
module ConfigFacts {
  import opened Outcomes
  import opened Builtins
  import opened ConfigObject

  /** An absent key with a well-formed integer default gives `int(default)`:
      the converted default passes the second check unchanged. */
  lemma IntAbsentKeyGivesDefault(c: ConfigObj, b: Builtins, key: string, d: Value)
    requires Sound(b)
    requires key !in c.dict && IsIntValue(b, d)
    ensures c.Int(b, key, Some(d)) == Ok(b.toInt(d))
  {
    assert IsIntValue(b, IntV(b.toInt(d)));
  }

  /** An absent key with a numeric default gives `float(default)`. */
  lemma FloatAbsentKeyGivesDefault(c: ConfigObj, b: Builtins, key: string, d: Value)
    requires Sound(b)
    requires key !in c.dict && b.isNumber(d)
    ensures c.Float(b, key, Some(d)) == Ok(b.toFloat(d))
  {
    assert b.toFloat(FloatV(b.toFloat(d))) == b.toFloat(d);
  }

  /** `UInt` hands back a stored integer below zero or above `maxVal`
      unchanged, where `UIntChecked` refuses it. */
  lemma UIntAcceptsOutOfRange(c: ConfigObj, b: Builtins, key: string, maxVal: Option<int>)
    requires key in c.dict && IsIntValue(b, Str(c.dict[key]))
    requires !ConfigObj.InRange(b.toInt(Str(c.dict[key])), maxVal)
    ensures c.UInt(b, key, maxVal, None) == Ok(b.toInt(Str(c.dict[key])))
    ensures !c.UIntChecked(b, key, maxVal, None).Ok?
  {
  }
}

/**
 * Properties of the three extraction forms of a `JJVal`: the optional form
 * (`asX`), the defaulting form (`toX`) and the throwing form (`x()`).
 */
module Extraction {
  import opened Wrappers
  import opened JJ

  /** What a throwing extractor does with the optional form's answer. */
  function Thrown<T>(o: Option<T>, v: JJVal, t: Target): Result<T, JJError> {
    match o
    case Some(x) => Success(x)
    case None => Failure(WrongType(v.raw, v.path, Label(t)))
  }

  /**
   * `toX(d)` is `asX ?? d`, and `x()` returns what `asX` holds or throws
   * `wrongType` carrying the raw value, the path and the target's label.
   */
  lemma ThreeFormsAgree(v: JJVal, b: bool, i: Int64, u: UInt64, num: Number, f: bv32, d: bv64, s: string)
    ensures v.ToBool(b) == v.AsBool().GetOr(b) && v.GetBool() == Thrown(v.AsBool(), v, TBool)
    ensures v.ToInt(i) == v.AsInt().GetOr(i) && v.GetInt() == Thrown(v.AsInt(), v, TInt)
    ensures v.ToUInt(u) == v.AsUInt().GetOr(u) && v.GetUInt() == Thrown(v.AsUInt(), v, TUInt)
    ensures v.ToNumber(num) == v.AsNumber().GetOr(num) && v.GetNumber() == Thrown(v.AsNumber(), v, TNumber)
    ensures v.ToFloat(f) == v.AsFloat().GetOr(f) && v.GetFloat() == Thrown(v.AsFloat(), v, TFloat)
    ensures v.ToDouble(d) == v.AsDouble().GetOr(d) && v.GetDouble() == Thrown(v.AsDouble(), v, TDouble)
    ensures v.ToString(s) == v.AsString().GetOr(s) && v.GetString() == Thrown(v.AsString(), v, TString)
    ensures v.ToObj().inner == v.AsObj() && v.GetObj() == Thrown(v.AsObj(), v, TObj)
    ensures v.ToArr().inner == v.AsArr() && v.GetArr() == Thrown(v.AsArr(), v, TArr)
  {
  }

  /** The same agreement for the forms that go through a Foundation parser. */
  lemma ParsedFormsAgree<D, U>(v: JJVal, parseDate: string -> Option<D>, parseURL: string -> Option<U>, u: U)
    ensures v.GetDate(parseDate) == Thrown(v.AsDate(parseDate), v, TDate)
    ensures v.ToURL(parseURL, u) == v.AsURL(parseURL).GetOr(u)
    ensures v.GetURL(parseURL) == Thrown(v.AsURL(parseURL), v, TURL)
  {
  }

  /** The kinds with no widening: a node is accepted by at most one of them. */
  predicate Strict(t: Target) {
    t.TBool? || t.TInt? || t.TFloat? || t.TDouble? || t.TObj? || t.TArr? || t.TString?
  }

  /** No coercion across kinds: two different strict targets never accept the same node. */
  lemma StrictKindsExclusive(n: Node, t1: Target, t2: Target)
    requires Strict(t1) && Strict(t2) && t1 != t2
    requires Accepts(t1, n)
    ensures !Accepts(t2, n)
  {
  }

  /** Each throwing extractor names a different type in its error. */
  lemma LabelsDistinct(t1: Target, t2: Target)
    requires Label(t1) == Label(t2)
    ensures t1 == t2
  {
    assert Label(t1)[0] == Label(t2)[0];
    if |Label(t1)| > 1 {
      assert Label(t1)[1] == Label(t2)[1];
    }
  }

  /** An integer is not a Bool, a Float, a Double or a String; it is a number, and an unsigned exactly when not negative. */
  lemma IntegerNodes(v: JJVal)
    requires v.raw.Some? && v.raw.value.Int?
    ensures v.AsBool() == None && v.AsFloat() == None && v.AsDouble() == None && v.AsString() == None
    ensures v.AsNumber() == Some(IntNumber(v.raw.value.i))
    ensures v.raw.value.i >= 0 ==> v.AsUInt() == Some(v.raw.value.i as int as UInt64)
    ensures v.raw.value.i < 0 ==> v.AsUInt() == None && v.GetUInt() == Failure(WrongType(v.raw, v.path, "UInt"))
  {
  }

  /** An unsigned integer is never narrowed to a signed one. */
  lemma UnsignedNodes(v: JJVal)
    requires v.raw.Some? && v.raw.value.UInt?
    ensures v.AsInt() == None && v.AsUInt() == Some(v.raw.value.u)
    ensures v.AsNumber() == Some(UIntNumber(v.raw.value.u))
  {
  }

  /** A string that spells a number or a truth value is still only a string. */
  lemma StringNodes(v: JJVal)
    requires v.raw.Some? && v.raw.value.Str?
    ensures v.AsBool() == None && v.AsInt() == None && v.AsUInt() == None && v.AsNumber() == None
    ensures v.AsFloat() == None && v.AsDouble() == None && v.AsObj() == None && v.AsArr() == None
    ensures v.AsString() == Some(v.raw.value.s)
  {
  }

  /**
   * An absent value and an explicit null both fail every extraction, with an
   * error naming the value's own path; only `Exists` and `IsNull` tell them apart.
   */
  lemma NothingExtractsFromAbsentOrNull<D, U, Z>(v: JJVal, parseDate: string -> Option<D>,
                                                  parseURL: string -> Option<U>, lookup: string -> Option<Z>)
    requires !v.Exists() || v.IsNull()
    ensures v.Exists() <==> v.IsNull()
    ensures v.AsBool() == None && v.AsInt() == None && v.AsUInt() == None && v.AsNumber() == None
    ensures v.AsFloat() == None && v.AsDouble() == None && v.AsString() == None
    ensures v.AsObj() == None && v.AsArr() == None && !v.ToObj().Exists() && !v.ToArr().Exists()
    ensures v.AsDate(parseDate) == None && v.AsURL(parseURL) == None && v.AsTimeZone(lookup) == None
    ensures v.GetBool() == Failure(WrongType(v.raw, v.path, "Bool"))
    ensures v.GetString() == Failure(WrongType(v.raw, v.path, "String"))
    ensures v.GetURL(parseURL) == Failure(WrongType(v.raw, v.path, "NSURL"))
    ensures v.ToBool() == false && v.ToInt() == 0 && v.ToUInt() == 0 && v.ToString() == ""
    ensures v.ToFloat() == 0 && v.ToDouble() == 0 && v.ToNumber() == IntNumber(0)
  {
  }

  /** The dates, URLs and time zones read only strings, and a string the parser refuses also fails. */
  lemma ParsedFormsNeedParsableString<D, U, Z>(v: JJVal, parseDate: string -> Option<D>,
                                               parseURL: string -> Option<U>, lookup: string -> Option<Z>)
    ensures v.AsDate(parseDate).Some? ==> v.raw.Some? && v.raw.value.Str? && parseDate(v.raw.value.s).Some?
    ensures v.AsURL(parseURL).Some? ==> v.raw.Some? && v.raw.value.Str? && parseURL(v.raw.value.s).Some?
    ensures v.AsTimeZone(lookup).Some? ==> v.raw.Some? && v.raw.value.Str? && lookup(v.raw.value.s).Some?
    ensures v.GetDate(parseDate).Failure? ==> v.GetDate(parseDate).error == WrongType(v.raw, v.path, "NSDate")
  {
  }

  /** The message of an error about a missing value. */
  lemma AbsentMessage(path: string, toType: string, describe: Node -> string)
    ensures WrongType(None, path, toType).Description(describe)
         == "JJError.WrongType: Can't convert nil at path: '" + path + "' to type '" + toType + "'"
  {
    assert "JJError.WrongType: Can't convert " + "nil" + " at path: '" == "JJError.WrongType: Can't convert nil at path: '";
  }

  /** The message of an error about a value of the wrong kind: the value's description, wrapped as an optional. */
  lemma PresentMessage(n: Node, path: string, toType: string, describe: Node -> string)
    ensures WrongType(Some(n), path, toType).Description(describe)
         == "JJError.WrongType: Can't convert Optional(" + describe(n) + ") at path: '" + path + "' to type '" + toType + "'"
  {
    PresentMessageParts(n, path, toType, describe);
    OptionalPrefix(describe(n));
  }

  lemma PresentMessageParts(n: Node, path: string, toType: string, describe: Node -> string)
    ensures WrongType(Some(n), path, toType).Description(describe)
         == "JJError.WrongType: Can't convert " + ("Optional(" + describe(n) + ")") + " at path: '" + path + "' to type '" + toType + "'"
  {
  }

  lemma OptionalPrefix(d: string)
    ensures "JJError.WrongType: Can't convert " + ("Optional(" + d + ")") + " at path: '"
         == "JJError.WrongType: Can't convert Optional(" + d + ") at path: '"
  {
    assert "JJError.WrongType: Can't convert " + "Optional(" == "JJError.WrongType: Can't convert Optional(";
  }

  /**
   * The unsigned accessor as written stops the program on a negative signed
   * integer, where its documentation promises `nil`; on every other input it
   * agrees with the documented reading.
   */
  lemma NegativeUIntTraps(v: JJVal)
    requires v.raw.Some? && v.raw.value.Int? && v.raw.value.i < 0
    ensures v.AsUIntAsWritten() == Trapped
    ensures v.AsUInt() == None && v.ToUInt(7) == 7
  {
  }
}

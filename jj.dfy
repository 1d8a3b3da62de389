/**
 * The path-tracking accessor layer of JJ: immutable views over an
 * already-decoded, dynamically typed JSON-like tree. Every navigation step
 * returns a new value that remembers the path taken to reach it; every
 * extraction comes in three forms (optional, defaulting, throwing).
 */
module JJ {
  import opened Wrappers
  import opened Text

  /** Swift's `Int` and `UInt` on a 64-bit platform. */
  newtype Int64 = x: int | -0x8000_0000_0000_0000 <= x < 0x8000_0000_0000_0000
  newtype UInt64 = x: int | 0 <= x < 0x1_0000_0000_0000_0000

  /**
   * One node of the decoded tree, as Swift's `Any` holds it. Each variant is
   * the runtime type an `as?` cast can find; floating-point values are kept
   * as their IEEE 754 bits and are never computed with.
   */
  datatype Node =
    | Null                            // NSNull()
    | Bool(b: bool)
    | Int(i: Int64)
    | UInt(u: UInt64)
    | Float(f: bv32)
    | Double(d: bv64)
    | Str(s: string)
    | Arr(items: seq<Node>)           // [Any]
    | Obj(fields: map<string, Node>)  // [String: Any]
    | Other(className: string)        // any other object, e.g. an NSDate

  /** An `NSNumber`: the box around any numeric node. */
  datatype Number =
    | IntNumber(i: Int64)
    | UIntNumber(u: UInt64)
    | FloatNumber(f: bv32)
    | DoubleNumber(d: bv64)

  /** The node a number boxes. */
  function Boxed(num: Number): Node {
    match num
    case IntNumber(i) => Int(i)
    case UIntNumber(u) => UInt(u)
    case FloatNumber(f) => Float(f)
    case DoubleNumber(d) => Double(d)
  }

  /** The target types of the throwing extractors. */
  datatype Target = TBool | TInt | TUInt | TNumber | TFloat | TDouble | TObj | TArr | TString | TDate | TURL

  /**
   * The type name each throwing extractor puts in its `wrongType` error. It
   * holds no quote, so the quoted name that ends the message is exactly it.
   */
  function Label(t: Target): (s: string)
    ensures |s| > 0 && '\'' !in s
  {
    match t
    case TBool => "Bool"
    case TInt => "Int"
    case TUInt => "UInt"
    case TNumber => "NSNumber"
    case TFloat => "Float"
    case TDouble => "Double"
    case TObj => "[String: Any]"
    case TArr => "[Any]"
    case TString => "String"
    case TDate => "NSDate"
    case TURL => "NSURL"
  }

  /**
   * The node kinds an extraction to `t` accepts: no coercion across kinds,
   * except that an unsigned request also takes a non-negative signed integer
   * and a number request takes every numeric kind. For dates and URLs this is only the
   * first gate: the string must then also parse.
   */
  predicate Accepts(t: Target, n: Node) {
    match t
    case TBool => n.Bool?
    case TInt => n.Int?
    case TUInt => n.UInt? || (n.Int? && n.i >= 0)
    case TNumber => n.Int? || n.UInt? || n.Float? || n.Double?
    case TFloat => n.Float?
    case TDouble => n.Double?
    case TObj => n.Obj?
    case TArr => n.Arr?
    case TString | TDate | TURL => n.Str?
  }

  /** What a conversion that can stop the program gives back. */
  datatype Conversion<T> = Converted(value: T) | Trapped

  /** The root path of a freshly wrapped value. */
  const RootPath: string := "<root>"

  // ---------------------------------------------------------------------------
  // Errors
  // ---------------------------------------------------------------------------

  /**
   * The two errors of the library. `describe` is the debug description of a
   * node (`String(reflecting:)`, which quotes strings), the form Swift uses for
   * the payload of an optional; the model does not interpret it.
   */
  datatype JJError =
    | WrongType(v: Option<Node>, path: string, toType: string)
    | NotFound(path: string)
  {
    function Description(describe: Node -> string): (s: string)
      ensures WrongType? ==> "JJError.WrongType: Can't convert " <= s
      ensures WrongType? ==> |s| >= |toType| + 11 && s[|s| - |toType| - 11..] == " to type '" + toType + "'"
      ensures NotFound? ==> s == "JJError.NotFound: No object at path: '" + path + "'"
    {
      match this
      case WrongType(v, path, toType) =>
        var shown := match v case None => "nil" case Some(n) => "Optional(" + describe(n) + ")";
        "JJError.WrongType: Can't convert " + shown + " at path: '" + path + "' to type '" + toType + "'"
      case NotFound(path) =>
        "JJError.NotFound: No object at path: '" + path + "'"
    }
  }

  // ---------------------------------------------------------------------------
  // Views over a confirmed array or dictionary, and their optional versions
  // ---------------------------------------------------------------------------

  /** An array node together with the path it was reached by. */
  datatype JJArr = JJArr(raw: seq<Node>, path: string) {

    /** Element `index`, or an absent value when `index` is out of range; never fails. */
    function At(index: Int64): (r: JJVal)
      ensures r.path == path + "[" + IntToString(index as int) + "]"
      ensures r.Exists() <==> 0 <= index as int < |raw|
      ensures r.Exists() ==> r.raw.value == raw[index]
    {
      var newPath := path + "[" + IntToString(index as int) + "]";
      if 0 <= index as int < |raw| then JJVal(Some(raw[index]), newPath)
      else JJVal(None, newPath)
    }

    /** A confirmed array always exists. */
    predicate Exists(): (b: bool)
      ensures b
    {
      true
    }

    /** The number of elements: exactly the indices that find one. */
    function Count(): (n: nat)
      ensures forall i: Int64 :: At(i).Exists() <==> 0 <= i as int < n
    {
      |raw|
    }

    /**
     * Builds the text line by line, each line followed by ",\n", then deletes
     * the last comma.
     */
    method PrettyPrint(show: Node -> string, space: string := "", spacer: string := "  ") returns (s: string)
      ensures s == PrettyArr(raw, space, spacer, show)
      decreases Arr(raw), 1
    {
      if |raw| == 0 {
        return "[]";
      }
      var str := "[\n";
      var nextSpace := space + spacer;
      ghost var lines := ItemLines(raw, nextSpace, spacer, show);
      for i := 0 to |raw|
        invariant str == "[\n" + Terminated(lines[..i], ",\n")
      {
        var item := Wrap(Some(raw[i])).PrettyPrint(show, nextSpace, spacer);
        TerminatedSnoc(lines, i, ",\n");
        str := str + (nextSpace + item + ",\n");
      }
      assert lines[..|raw|] == lines;
      TerminatedIsJoinPlusTerm(lines, ",\n");
      str := DeleteTrailingComma(str, "[\n" + Join(lines, ",\n"));
      s := str + space + "]";
    }

    method DebugDescription(show: Node -> string) returns (s: string)
      ensures s == PrettyArr(raw, "", "  ", show)
    {
      s := PrettyPrint(show);
    }
  }

  /** An array view that may be missing because the value was not an array. */
  datatype JJMaybeArr = JJMaybeArr(inner: Option<JJArr>, path: string) {

    /** Delegates to the inner view; without one, an absent value under a `<nil>` marker. */
    function At(index: Int64): (r: JJVal)
      ensures inner.Some? ==> r == inner.value.At(index)
      ensures inner.None? ==> r == JJVal(None, path + "<nil>[" + IntToString(index as int) + "]")
    {
      match inner
      case Some(a) => a.At(index)
      case None => JJVal(None, path + "<nil>[" + IntToString(index as int) + "]")
    }

    /** Holds an array exactly when it has one to give. */
    predicate Exists(): (b: bool)
      ensures b <==> Raw().Some?
    {
      inner.Some?
    }

    /** The held array, the one its subscripts read from; without one, no index finds anything. */
    function Raw(): (r: Option<seq<Node>>)
      ensures r.Some? <==> inner.Some?
      ensures r.Some? ==> forall i: Int64 :: 0 <= i as int < |r.value| ==> At(i).raw == Some(r.value[i])
      ensures r.None? ==> forall i: Int64 :: !At(i).Exists()
    {
      match inner
      case Some(a) => Some(a.raw)
      case None => None
    }
  }

  /** A dictionary node together with the path it was reached by. */
  datatype JJObj = JJObj(raw: map<string, Node>, path: string) {

    /** The entry under `key`, or an absent value when there is none; never fails. */
    function At(key: string): (r: JJVal)
      ensures r.path == path + "." + key
      ensures r.Exists() <==> key in raw
      ensures r.Exists() ==> r.raw.value == raw[key]
    {
      JJVal(if key in raw then Some(raw[key]) else None, path + "." + key)
    }

    /** A confirmed dictionary always exists. */
    predicate Exists(): (b: bool)
      ensures b
    {
      true
    }

    /** The number of entries: one per key, as many as the printer lists; zero exactly when no key finds anything. */
    function Count(): (n: nat)
      ensures n == |SortedKeys(raw.Keys)|
      ensures n == 0 <==> forall k :: !At(k).Exists()
    {
      if |raw| == 0 then 0
      else
        var k :| k in raw.Keys;
        assert At(k).Exists();
        |raw|
    }

    /**
     * Builds the text entry by entry in sorted key order, each line followed
     * by ",\n", then deletes the last comma.
     */
    method PrettyPrint(show: Node -> string, space: string := "", spacer: string := "  ") returns (s: string)
      ensures s == PrettyObj(raw, space, spacer, show)
      decreases Obj(raw), 1
    {
      if |raw| == 0 {
        return "{}";
      }
      var str := "{\n";
      var sortedKeys := SortedKeys(raw.Keys);
      var nextSpace := space + spacer;
      ghost var lines := EntryLines(raw, sortedKeys, nextSpace, spacer, show);
      for i := 0 to |sortedKeys|
        invariant str == "{\n" + Terminated(lines[..i], ",\n")
      {
        var k := sortedKeys[i];
        // `k` comes from the keys, so the source's `guard let v = _v[k]` always binds.
        var value := Wrap(Some(raw[k])).PrettyPrint(show, nextSpace, spacer);
        EntryStep(raw, sortedKeys, nextSpace, spacer, show, i, str, value);
        str := str + (nextSpace + "\"" + k + "\": " + value + ",\n");
      }
      assert lines[..|sortedKeys|] == lines;
      PrettyObjFromTerminated(raw, space, spacer, show, str);
      str := DeleteTrailingComma(str, "{\n" + Join(lines, ",\n"));
      s := str + space + "}";
    }

    method DebugDescription(show: Node -> string) returns (s: string)
      ensures s == PrettyObj(raw, "", "  ", show)
    {
      s := PrettyPrint(show);
    }
  }

  /** A dictionary view that may be missing because the value was not a dictionary. */
  datatype JJMaybeObj = JJMaybeObj(inner: Option<JJObj>, path: string) {

    /** Delegates to the inner view; without one, an absent value under a `<nil>` marker. */
    function At(key: string): (r: JJVal)
      ensures inner.Some? ==> r == inner.value.At(key)
      ensures inner.None? ==> r == JJVal(None, path + "<nil>." + key)
    {
      match inner
      case Some(o) => o.At(key)
      case None => JJVal(None, path + "<nil>." + key)
    }

    /** Holds a dictionary exactly when it has one to give. */
    predicate Exists(): (b: bool)
      ensures b <==> Raw().Some?
    {
      inner.Some?
    }

    /** The held dictionary, the one its subscripts read from; without one, no key finds anything. */
    function Raw(): (r: Option<map<string, Node>>)
      ensures r.Some? <==> inner.Some?
      ensures r.Some? ==> forall k :: k in r.value ==> At(k).raw == Some(r.value[k])
      ensures r.None? ==> forall k :: !At(k).Exists()
    {
      match inner
      case Some(o) => Some(o.raw)
      case None => None
    }
  }

  // ---------------------------------------------------------------------------
  // The value: one node or nothing, and its path
  // ---------------------------------------------------------------------------

  /** `jj(v)`: wraps a raw value at the root path. */
  function Wrap(v: Option<Node>): (r: JJVal)
    ensures r.raw == v && r.path == "<root>"
  {
    JJVal(v, RootPath)
  }

  /**
   * A node, or `None` when navigation found nothing (which differs from a
   * node that is `Null`), and the path taken to reach it.
   */
  datatype JJVal = JJVal(raw: Option<Node>, path: string) {

    /** A node is held, an explicit null included. */
    predicate Exists(): (b: bool)
      ensures IsNull() ==> b
      ensures !b ==> AsBool().None? && AsNumber().None? && AsString().None? && AsObj().None? && AsArr().None?
    {
      raw.Some?
    }

    /** The held node is the explicit null, which no extractor converts. */
    predicate IsNull(): (b: bool)
      ensures b ==> AsBool().None? && AsNumber().None? && AsString().None? && AsObj().None? && AsArr().None?
    {
      raw == Some(Null)
    }

    // --- Bool ---

    function AsBool(): (r: Option<bool>)
      ensures r.Some? <==> raw.Some? && Accepts(TBool, raw.value)
      ensures r.Some? ==> raw == Some(Bool(r.value))
    {
      match raw
      case Some(Bool(b)) => Some(b)
      case _ => None
    }

    function ToBool(default: bool := false): (r: bool)
      ensures raw.Some? && raw.value.Bool? ==> r == raw.value.b
      ensures !(raw.Some? && raw.value.Bool?) ==> r == default
    {
      AsBool().GetOr(default)
    }

    function GetBool(): (r: Result<bool, JJError>)
      ensures r.Success? <==> raw.Some? && Accepts(TBool, raw.value)
      ensures r.Success? ==> raw == Some(Bool(r.value))
      ensures r.Failure? ==> r.error == WrongType(raw, path, "Bool")
    {
      match raw
      case Some(Bool(x)) => Success(x)
      case _ => Failure(WrongType(raw, path, Label(TBool)))
    }

    // --- Int ---

    function AsInt(): (r: Option<Int64>)
      ensures r.Some? <==> raw.Some? && Accepts(TInt, raw.value)
      ensures r.Some? ==> raw == Some(Int(r.value))
    {
      match raw
      case Some(Int(i)) => Some(i)
      case _ => None
    }

    function ToInt(default: Int64 := 0): (r: Int64)
      ensures raw.Some? && raw.value.Int? ==> r == raw.value.i
      ensures !(raw.Some? && raw.value.Int?) ==> r == default
    {
      AsInt().GetOr(default)
    }

    function GetInt(): (r: Result<Int64, JJError>)
      ensures r.Success? <==> raw.Some? && Accepts(TInt, raw.value)
      ensures r.Success? ==> raw == Some(Int(r.value))
      ensures r.Failure? ==> r.error == WrongType(raw, path, "Int")
    {
      match AsInt()
      case Some(x) => Success(x)
      case None => Failure(WrongType(raw, path, Label(TInt)))
    }

    // --- UInt ---

    /**
     * The unsigned reading: an unsigned integer as it is, a signed one when it
     * is not negative, and nothing otherwise, as the accessor's documentation
     * promises ("if this is impossible, it is `nil`").
     */
    function AsUInt(): (r: Option<UInt64>)
      ensures r.Some? <==> raw.Some? && Accepts(TUInt, raw.value)
      ensures r.Some? ==> ((raw.value.UInt? && raw.value.u == r.value)
                        || (raw.value.Int? && raw.value.i as int == r.value as int))
    {
      match raw
      case Some(UInt(u)) => Some(u)
      case Some(Int(i)) => if i < 0 then None else Some(i as int as UInt64)
      case _ => None
    }

    /**
     * The unsigned reading as the accessor is written: `UInt(v)` on a signed
     * integer stops the program when `v` is negative; every other input gets
     * the documented answer.
     */
    function AsUIntAsWritten(): (r: Conversion<Option<UInt64>>)
      ensures r.Trapped? <==> raw.Some? && raw.value.Int? && raw.value.i < 0
      ensures r.Converted? ==> r.value == AsUInt()
    {
      match raw
      case Some(UInt(u)) => Converted(Some(u))
      case Some(Int(i)) => if i < 0 then Trapped else Converted(Some(i as int as UInt64))
      case _ => Converted(None)
    }

    function ToUInt(default: UInt64 := 0): (r: UInt64)
      ensures raw.Some? && raw.value.UInt? ==> r == raw.value.u
      ensures raw.Some? && raw.value.Int? && raw.value.i >= 0 ==> r as int == raw.value.i as int
      ensures !(raw.Some? && Accepts(TUInt, raw.value)) ==> r == default
    {
      AsUInt().GetOr(default)
    }

    function GetUInt(): (r: Result<UInt64, JJError>)
      ensures r.Success? <==> raw.Some? && Accepts(TUInt, raw.value)
      ensures r.Success? ==> AsUInt() == Some(r.value)
      ensures r.Failure? ==> r.error == WrongType(raw, path, "UInt")
    {
      match AsUInt()
      case Some(x) => Success(x)
      case None => Failure(WrongType(raw, path, Label(TUInt)))
    }

    // --- NSNumber ---

    function AsNumber(): (r: Option<Number>)
      ensures r.Some? <==> raw.Some? && Accepts(TNumber, raw.value)
      ensures r.Some? ==> raw == Some(Boxed(r.value))
    {
      match raw
      case Some(Int(i)) => Some(IntNumber(i))
      case Some(UInt(u)) => Some(UIntNumber(u))
      case Some(Float(f)) => Some(FloatNumber(f))
      case Some(Double(d)) => Some(DoubleNumber(d))
      case _ => None
    }

    function ToNumber(default: Number := IntNumber(0)): (r: Number)
      ensures !(raw.Some? && Accepts(TNumber, raw.value)) ==> r == default
      ensures raw.Some? && Accepts(TNumber, raw.value) ==> raw == Some(Boxed(r))
    {
      AsNumber().GetOr(default)
    }

    function GetNumber(): (r: Result<Number, JJError>)
      ensures r.Success? <==> raw.Some? && Accepts(TNumber, raw.value)
      ensures r.Success? ==> raw == Some(Boxed(r.value))
      ensures r.Failure? ==> r.error == WrongType(raw, path, "NSNumber")
    {
      match AsNumber()
      case Some(x) => Success(x)
      case None => Failure(WrongType(raw, path, Label(TNumber)))
    }

    // --- Float ---

    function AsFloat(): (r: Option<bv32>)
      ensures r.Some? <==> raw.Some? && Accepts(TFloat, raw.value)
      ensures r.Some? ==> raw == Some(Float(r.value))
    {
      match raw
      case Some(Float(f)) => Some(f)
      case _ => None
    }

    function ToFloat(default: bv32 := 0): (r: bv32)
      ensures raw.Some? && raw.value.Float? ==> r == raw.value.f
      ensures !(raw.Some? && raw.value.Float?) ==> r == default
    {
      AsFloat().GetOr(default)
    }

    function GetFloat(): (r: Result<bv32, JJError>)
      ensures r.Success? <==> raw.Some? && Accepts(TFloat, raw.value)
      ensures r.Success? ==> raw == Some(Float(r.value))
      ensures r.Failure? ==> r.error == WrongType(raw, path, "Float")
    {
      match AsFloat()
      case Some(x) => Success(x)
      case None => Failure(WrongType(raw, path, Label(TFloat)))
    }

    // --- Double ---

    function AsDouble(): (r: Option<bv64>)
      ensures r.Some? <==> raw.Some? && Accepts(TDouble, raw.value)
      ensures r.Some? ==> raw == Some(Double(r.value))
    {
      match raw
      case Some(Double(d)) => Some(d)
      case _ => None
    }

    function ToDouble(default: bv64 := 0): (r: bv64)
      ensures raw.Some? && raw.value.Double? ==> r == raw.value.d
      ensures !(raw.Some? && raw.value.Double?) ==> r == default
    {
      AsDouble().GetOr(default)
    }

    function GetDouble(): (r: Result<bv64, JJError>)
      ensures r.Success? <==> raw.Some? && Accepts(TDouble, raw.value)
      ensures r.Success? ==> raw == Some(Double(r.value))
      ensures r.Failure? ==> r.error == WrongType(raw, path, "Double")
    {
      match AsDouble()
      case Some(x) => Success(x)
      case None => Failure(WrongType(raw, path, Label(TDouble)))
    }

    // --- Object ---

    /** The dictionary view, at this value's own path. */
    function AsObj(): (r: Option<JJObj>)
      ensures r.Some? <==> raw.Some? && Accepts(TObj, raw.value)
      ensures r.Some? ==> raw == Some(Obj(r.value.raw)) && r.value.path == path
    {
      match raw
      case Some(Obj(fields)) => Some(JJObj(fields, path))
      case _ => None
    }

    /** Never fails: a missing dictionary gives an empty optional view at the same path. */
    function ToObj(): (r: JJMaybeObj)
      ensures r.path == path
      ensures r.Exists() <==> raw.Some? && raw.value.Obj?
      ensures r.inner == AsObj()
    {
      JJMaybeObj(AsObj(), path)
    }

    function GetObj(): (r: Result<JJObj, JJError>)
      ensures r.Success? <==> raw.Some? && Accepts(TObj, raw.value)
      ensures r.Success? ==> raw == Some(Obj(r.value.raw)) && r.value.path == path
      ensures r.Failure? ==> r.error == WrongType(raw, path, "[String: Any]")
    {
      match raw
      case Some(Obj(fields)) => Success(JJObj(fields, path))
      case _ => Failure(WrongType(raw, path, Label(TObj)))
    }

    // --- Array ---

    /** The array view, at this value's own path. */
    function AsArr(): (r: Option<JJArr>)
      ensures r.Some? <==> raw.Some? && Accepts(TArr, raw.value)
      ensures r.Some? ==> raw == Some(Arr(r.value.raw)) && r.value.path == path
    {
      match raw
      case Some(Arr(items)) => Some(JJArr(items, path))
      case _ => None
    }

    /** Never fails: a missing array gives an empty optional view at the same path. */
    function ToArr(): (r: JJMaybeArr)
      ensures r.path == path
      ensures r.Exists() <==> raw.Some? && raw.value.Arr?
      ensures r.inner == AsArr()
    {
      JJMaybeArr(AsArr(), path)
    }

    function GetArr(): (r: Result<JJArr, JJError>)
      ensures r.Success? <==> raw.Some? && Accepts(TArr, raw.value)
      ensures r.Success? ==> raw == Some(Arr(r.value.raw)) && r.value.path == path
      ensures r.Failure? ==> r.error == WrongType(raw, path, "[Any]")
    {
      match raw
      case Some(Arr(items)) => Success(JJArr(items, path))
      case _ => Failure(WrongType(raw, path, Label(TArr)))
    }

    // --- String ---

    function AsString(): (r: Option<string>)
      ensures r.Some? <==> raw.Some? && Accepts(TString, raw.value)
      ensures r.Some? ==> raw == Some(Str(r.value))
    {
      match raw
      case Some(Str(s)) => Some(s)
      case _ => None
    }

    function ToString(default: string := ""): (r: string)
      ensures raw.Some? && raw.value.Str? ==> r == raw.value.s
      ensures !(raw.Some? && raw.value.Str?) ==> r == default
    {
      AsString().GetOr(default)
    }

    function GetString(): (r: Result<string, JJError>)
      ensures r.Success? <==> raw.Some? && Accepts(TString, raw.value)
      ensures r.Success? ==> raw == Some(Str(r.value))
      ensures r.Failure? ==> r.error == WrongType(raw, path, "String")
    {
      match AsString()
      case Some(x) => Success(x)
      case None => Failure(WrongType(raw, path, Label(TString)))
    }

    // --- Date: a string that the RFC 3339 formatter `parse` accepts ---

    function AsDate<D>(parse: string -> Option<D>): (r: Option<D>)
      ensures r.Some? ==> raw.Some? && Accepts(TDate, raw.value) && r == parse(raw.value.s)
      ensures raw.Some? && raw.value.Str? ==> r == parse(raw.value.s)
    {
      match AsString()
      case Some(s) => parse(s)
      case None => None
    }

    function GetDate<D>(parse: string -> Option<D>): (r: Result<D, JJError>)
      ensures r.Success? <==> raw.Some? && Accepts(TDate, raw.value) && parse(raw.value.s).Some?
      ensures r.Success? ==> parse(raw.value.s) == Some(r.value)
      ensures r.Failure? ==> r.error == WrongType(raw, path, "NSDate")
    {
      match AsDate(parse)
      case Some(d) => Success(d)
      case None => Failure(WrongType(raw, path, Label(TDate)))
    }

    // --- URL: a string that `URL(string:)`, here `parse`, accepts ---

    function AsURL<U>(parse: string -> Option<U>): (r: Option<U>)
      ensures r.Some? ==> raw.Some? && Accepts(TURL, raw.value) && r == parse(raw.value.s)
      ensures raw.Some? && raw.value.Str? ==> r == parse(raw.value.s)
    {
      match AsString()
      case Some(s) => parse(s)
      case None => None
    }

    function ToURL<U>(parse: string -> Option<U>, default: U): (r: U)
      ensures raw.Some? && raw.value.Str? && parse(raw.value.s).Some? ==> r == parse(raw.value.s).value
      ensures !(raw.Some? && raw.value.Str? && parse(raw.value.s).Some?) ==> r == default
    {
      AsURL(parse).GetOr(default)
    }

    function GetURL<U>(parse: string -> Option<U>): (r: Result<U, JJError>)
      ensures r.Success? <==> raw.Some? && Accepts(TURL, raw.value) && parse(raw.value.s).Some?
      ensures r.Success? ==> parse(raw.value.s) == Some(r.value)
      ensures r.Failure? ==> r.error == WrongType(raw, path, "NSURL")
    {
      match AsString()
      case Some(s) =>
        (match parse(s)
         case Some(u) => Success(u)
         case None => Failure(WrongType(raw, path, Label(TURL))))
      case None => Failure(WrongType(raw, path, Label(TURL)))
    }

    // --- TimeZone: a string that `TimeZone(identifier:)`, here `lookup`, accepts ---

    function AsTimeZone<Z>(lookup: string -> Option<Z>): (r: Option<Z>)
      ensures r.Some? ==> raw.Some? && raw.value.Str? && r == lookup(raw.value.s)
      ensures raw.Some? && raw.value.Str? ==> r == lookup(raw.value.s)
    {
      match AsString()
      case Some(s) => lookup(s)
      case None => None
    }

    // --- Navigation ---

    /** `v[key]`: through the optional dictionary view, so it never fails. */
    function AtKey(key: string): (r: JJVal)
      ensures raw.Some? && raw.value.Obj? ==> r.path == path + "." + key
      ensures !(raw.Some? && raw.value.Obj?) ==> r.path == path + "<nil>." + key
      ensures r.Exists() <==> raw.Some? && raw.value.Obj? && key in raw.value.fields
      ensures r.Exists() ==> r.raw.value == raw.value.fields[key]
    {
      ToObj().At(key)
    }

    /** `v[index]`: through the optional array view, so it never fails. */
    function AtIndex(index: Int64): (r: JJVal)
      ensures raw.Some? && raw.value.Arr? ==> r.path == path + "[" + IntToString(index as int) + "]"
      ensures !(raw.Some? && raw.value.Arr?) ==> r.path == path + "<nil>[" + IntToString(index as int) + "]"
      ensures r.Exists() <==> raw.Some? && raw.value.Arr? && 0 <= index as int < |raw.value.items|
      ensures r.Exists() ==> r.raw.value == raw.value.items[index]
    {
      ToArr().At(index)
    }

    // --- Text ---

    /** Dispatches on the held node: array, dictionary, string, null, other, nothing. */
    method PrettyPrint(show: Node -> string, space: string := "", spacer: string := "  ") returns (s: string)
      ensures s == PrettyVal(raw, space, spacer, show)
      decreases if raw.Some? then raw.value else Null, 2
    {
      var arr := AsArr();
      var obj := AsObj();
      var str := AsString();
      if arr.Some? {
        s := arr.value.PrettyPrint(show, space, spacer);
      } else if obj.Some? {
        s := obj.value.PrettyPrint(show, space, spacer);
      } else if str.Some? {
        s := "\"" + str.value + "\"";
      } else if IsNull() {
        s := "null";
      } else if raw.Some? {
        s := show(raw.value);
      } else {
        s := "nil";
      }
    }

    method DebugDescription(show: Node -> string) returns (s: string)
      ensures s == PrettyVal(raw, "", "  ", show)
    {
      s := PrettyPrint(show);
    }
  }

  /** Swift's `str.remove(at:)` of the comma in a text that ends with ",\n". */
  method DeleteTrailingComma(str: string, ghost body: string) returns (r: string)
    requires str == body + ",\n"
    ensures r == body + "\n"
  {
    r := str[..|str| - 2] + str[|str| - 1..];
    assert str[..|str| - 2] == body;
  }

  // ---------------------------------------------------------------------------
  // What the pretty-printer produces
  // ---------------------------------------------------------------------------

  /** The text of a value: `nil` when nothing is held. */
  function PrettyVal(v: Option<Node>, space: string, spacer: string, show: Node -> string): string {
    match v
    case Some(n) => PrettyNode(n, space, spacer, show)
    case None => "nil"
  }

  /** Arrays and dictionaries nest; strings are quoted as they are; other scalars use `show`. */
  function PrettyNode(n: Node, space: string, spacer: string, show: Node -> string): string
    decreases n, 2
  {
    match n
    case Arr(items) => PrettyArr(items, space, spacer, show)
    case Obj(fields) => PrettyObj(fields, space, spacer, show)
    case Str(s) => "\"" + s + "\""
    case Null => "null"
    case _ => show(n)
  }

  /** "[]", or one indented line per element, separated by ",\n", between "[\n" and "\n]". */
  function PrettyArr(items: seq<Node>, space: string, spacer: string, show: Node -> string): string
    decreases Arr(items), 1
  {
    if |items| == 0 then "[]"
    else "[\n" + Join(ItemLines(items, space + spacer, spacer, show), ",\n") + "\n" + space + "]"
  }

  function ItemLines(items: seq<Node>, indent: string, spacer: string, show: Node -> string): (lines: seq<string>)
    ensures |lines| == |items|
    decreases Arr(items), 0
  {
    seq(|items|, j requires 0 <= j < |items| => indent + PrettyNode(items[j], indent, spacer, show))
  }

  /** "{}", or one indented `"key": value` line per entry in sorted key order. */
  function PrettyObj(fields: map<string, Node>, space: string, spacer: string, show: Node -> string): string
    decreases Obj(fields), 1
  {
    if |fields| == 0 then "{}"
    else "{\n" + Join(EntryLines(fields, SortedKeys(fields.Keys), space + spacer, spacer, show), ",\n")
         + "\n" + space + "}"
  }

  /** Appending the next entry line and its terminator extends the terminated entry lines by one. */
  lemma EntryStep(fields: map<string, Node>, keys: seq<string>, indent: string, spacer: string,
                  show: Node -> string, i: nat, str: string, value: string)
    requires forall j :: 0 <= j < |keys| ==> keys[j] in fields
    requires i < |keys|
    requires str == "{\n" + Terminated(EntryLines(fields, keys, indent, spacer, show)[..i], ",\n")
    requires value == PrettyVal(Some(fields[keys[i]]), indent, spacer, show)
    ensures str + (indent + "\"" + keys[i] + "\": " + value + ",\n")
         == "{\n" + Terminated(EntryLines(fields, keys, indent, spacer, show)[..i + 1], ",\n")
  {
    var lines := EntryLines(fields, keys, indent, spacer, show);
    assert lines[i] == indent + "\"" + keys[i] + "\": " + value;
    TerminatedSnoc(lines, i, ",\n");
  }

  /** The text built with a terminator after every entry line is the object's text plus ",\n" before the closing line. */
  lemma PrettyObjFromTerminated(fields: map<string, Node>, space: string, spacer: string, show: Node -> string,
                                str: string)
    requires |fields| > 0
    requires str == "{\n" + Terminated(EntryLines(fields, SortedKeys(fields.Keys), space + spacer, spacer, show), ",\n")
    ensures str == "{\n" + Join(EntryLines(fields, SortedKeys(fields.Keys), space + spacer, spacer, show), ",\n") + ",\n"
    ensures PrettyObj(fields, space, spacer, show)
         == "{\n" + Join(EntryLines(fields, SortedKeys(fields.Keys), space + spacer, spacer, show), ",\n")
            + "\n" + space + "}"
  {
    var lines := EntryLines(fields, SortedKeys(fields.Keys), space + spacer, spacer, show);
    assert |fields.Keys| == |fields|;
    TerminatedIsJoinPlusTerm(lines, ",\n");
  }

  function EntryLines(fields: map<string, Node>, keys: seq<string>, indent: string, spacer: string,
                      show: Node -> string): (lines: seq<string>)
    requires forall i :: 0 <= i < |keys| ==> keys[i] in fields
    ensures |lines| == |keys|
    decreases Obj(fields), 0
  {
    seq(|keys|, j requires 0 <= j < |keys| =>
      indent + "\"" + keys[j] + "\": " + PrettyNode(fields[keys[j]], indent, spacer, show))
  }
}

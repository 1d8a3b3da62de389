/**
 * Concrete documents and the exact values, paths, error messages and texts
 * the library gives for them. Floating-point numbers appear as their IEEE 754
 * bits; the scalar descriptions Foundation would print are parameters.
 */
module Scenarios {
  import opened Wrappers
  import opened Text
  import opened JJ
  import opened Navigation
  import opened Extraction

  /** `["firstName": "Yury", "lastName": "Korolev"]` */
  const Person: Node := Obj(map["firstName" := Str("Yury"), "lastName" := Str("Korolev")])

  /** 12.1 as a Double. */
  const TwelvePointOne: bv64 := 0x4028_3333_3333_3333

  /** 5.5 as a Double. */
  const FivePointFive: bv64 := 0x4016_0000_0000_0000

  /** A document with one entry of every kind. */
  const Sample: Node := Obj(map[
    "firstName" := Str("Yury"),
    "lastName" := Str("Korolev"),
    "trueFlag" := Bool(true),
    "falseFlag" := Bool(false),
    "intValue" := Int(13),
    "doubleValue" := Double(TwelvePointOne),
    "date" := Str("2016-06-10T00:00:00.000Z"),
    "url" := Str("http://anjlab.com"),
    "zone" := Str("Europe/Moscow"),
    "arr" := Arr([Int(1), Int(2), Int(3)]),
    "obj" := Obj(map["value" := Int(1)])
  ])

  /** `[1, "Nice", 5.5, NSNull(), "http://anjlab.com"]` */
  const Mixed: Node := Arr([Int(1), Str("Nice"), Double(FivePointFive), Null, Str("http://anjlab.com")])

  /** The person's keys, in the order `sorted()` gives them. */
  lemma PersonKeysSorted()
    ensures SortedKeys(Person.fields.Keys) == ["firstName", "lastName"]
  {
    var ks := ["firstName", "lastName"];
    SortedKeysUnique(Person.fields.Keys, ks);
  }

  /** The person's entry lines, in sorted key order. */
  lemma PersonLines(show: Node -> string)
    ensures EntryLines(Person.fields, ["firstName", "lastName"], "  ", "  ", show)
         == ["  \"firstName\": \"Yury\"", "  \"lastName\": \"Korolev\""]
  {
    var lines := EntryLines(Person.fields, ["firstName", "lastName"], "  ", "  ", show);
    assert lines[0] == "  " + "\"" + "firstName" + "\": " + "\"" + "Yury" + "\"";
    assert lines[1] == "  " + "\"" + "lastName" + "\": " + "\"" + "Korolev" + "\"";
    FirstNameLine();
    LastNameLine();
  }

  /** The dictionary's text: keys sorted, two spaces of indentation, no comma after the last entry. */
  method PersonText(show: Node -> string) returns (s: string)
    ensures s == "{\n  \"firstName\": \"Yury\",\n  \"lastName\": \"Korolev\"\n}"
  {
    var o := Wrap(Some(Person)).GetObj();
    s := o.value.DebugDescription(show);
    PersonKeysSorted();
    PersonLines(show);
    PersonTextFromLines(show);
  }

  /** Assembling the person's text from its two entry lines. */
  lemma PersonTextFromLines(show: Node -> string)
    requires SortedKeys(Person.fields.Keys) == ["firstName", "lastName"]
    requires EntryLines(Person.fields, ["firstName", "lastName"], "  ", "  ", show)
          == ["  \"firstName\": \"Yury\"", "  \"lastName\": \"Korolev\""]
    ensures PrettyObj(Person.fields, "", "  ", show)
         == "{\n  \"firstName\": \"Yury\",\n  \"lastName\": \"Korolev\"\n}"
  {
    var lines := ["  \"firstName\": \"Yury\"", "  \"lastName\": \"Korolev\""];
    assert "" + "  " == "  ";
    assert PrettyObj(Person.fields, "", "  ", show) == "{\n" + Join(lines, ",\n") + "\n" + "" + "}";
    PersonGlue(lines[0], lines[1]);
  }

  /** An element of the dictionary prints as a quoted string. */
  method FirstNameText(show: Node -> string) returns (s: string)
    ensures s == "\"Yury\""
  {
    var v := Wrap(Some(Person)).AtKey("firstName");
    s := v.DebugDescription(show);
  }

  /** The element lines of the mixed array. */
  lemma MixedLines(show: Node -> string)
    requires show(Int(1)) == "1" && show(Double(FivePointFive)) == "5.5"
    ensures ItemLines(Mixed.items, "  ", "  ", show)
         == ["  1", "  \"Nice\"", "  5.5", "  null", "  \"http://anjlab.com\""]
  {
    var items := Mixed.items;
    var lines := ItemLines(items, "  ", "  ", show);
    forall j | 0 <= j < 5
      ensures lines[j] == "  " + PrettyNode(items[j], "  ", "  ", show)
    {
    }
    assert lines[0] == "  1";
    assert lines[1] == "  \"Nice\"";
    assert lines[2] == "  5.5";
    assert lines[3] == "  null";
    assert lines[4] == "  \"http://anjlab.com\"";
  }

  /** Five lines joined by ",\n", after a heading. */
  lemma JoinFive(head: string, lines: seq<string>)
    requires |lines| == 5
    ensures head + Join(lines, ",\n")
         == head + lines[0] + ",\n" + lines[1] + ",\n" + lines[2] + ",\n" + lines[3] + ",\n" + lines[4]
  {
    JoinPrefixStep(head, lines, 1, ",\n");
    JoinPrefixStep(head, lines, 2, ",\n");
    JoinPrefixStep(head, lines, 3, ",\n");
    JoinPrefixStep(head, lines, 4, ",\n");
  }

  /** The array's text, given Foundation's descriptions of its numbers. */
  method MixedText(show: Node -> string) returns (s: string)
    requires show(Int(1)) == "1" && show(Double(FivePointFive)) == "5.5"
    ensures s == "[\n  1,\n  \"Nice\",\n  5.5,\n  null,\n  \"http://anjlab.com\"\n]"
  {
    var a := Wrap(Some(Mixed)).GetArr();
    s := a.value.PrettyPrint(show);
    MixedTextFromLines(show);
  }

  lemma MixedTextFromLines(show: Node -> string)
    requires show(Int(1)) == "1" && show(Double(FivePointFive)) == "5.5"
    ensures PrettyArr(Mixed.items, "", "  ", show)
         == "[\n  1,\n  \"Nice\",\n  5.5,\n  null,\n  \"http://anjlab.com\"\n]"
  {
    var lines := ["  1", "  \"Nice\"", "  5.5", "  null", "  \"http://anjlab.com\""];
    MixedLines(show);
    assert "" + "  " == "  ";
    JoinFive("[\n", lines);
    MixedGlue(lines[0], lines[1], lines[2], lines[3], lines[4]);
  }

  /** `[1, "Nice"]` prints one element per line. */
  method ShortArrayText(show: Node -> string) returns (s: string)
    requires show(Int(1)) == "1"
    ensures s == "[\n  1,\n  \"Nice\"\n]"
  {
    var a := JJArr([Int(1), Str("Nice")], RootPath);
    s := a.DebugDescription(show);
    ShortArrayFromLines(show);
  }

  lemma ShortArrayFromLines(show: Node -> string)
    requires show(Int(1)) == "1"
    ensures PrettyArr([Int(1), Str("Nice")], "", "  ", show) == "[\n  1,\n  \"Nice\"\n]"
  {
    var items := [Int(1), Str("Nice")];
    var lines := ItemLines(items, "  ", "  ", show);
    assert "" + "  " == "  ";
    assert Join(lines, ",\n") == lines[0] + ",\n" + lines[1];
    ShortArrayGlue(lines[0], lines[1]);
  }

  /** The text of a value does not depend on the path it was reached by. */
  method DebugIgnoresPath(show: Node -> string) returns (a: string, b: string)
    ensures a == b
  {
    a := JJVal(Some(Int(1)), "<root>.1").DebugDescription(show);
    b := Wrap(Some(Mixed)).AtIndex(0).DebugDescription(show);
  }

  /** Reading the elements of the mixed array. */
  lemma MixedReads(parse: string -> Option<string>)
    requires parse("http://anjlab.com") == Some("http://anjlab.com")
    ensures var arr := Wrap(Some(Mixed)).GetArr();
            arr.Success? && arr.value.Count() == 5 && arr.value.Exists() && arr.value.path == "<root>"
    ensures var arr := Wrap(Some(Mixed)).GetArr().value;
            arr.At(0).GetInt() == Success(1) && arr.At(1).GetString() == Success("Nice")
            && arr.At(2).GetDouble() == Success(FivePointFive) && arr.At(3).IsNull() && arr.At(1).Exists()
            && arr.At(4).GetURL(parse) == Success("http://anjlab.com")
    ensures var arr := Wrap(Some(Mixed)).GetArr().value;
            !arr.At(5).Exists() && arr.At(5).path == "<root>[5]" && !arr.At(-1).Exists()
  {
  }

  /** The sample document is a dictionary of eleven entries at the root. */
  lemma SampleIsObject()
    ensures var o := Wrap(Some(Sample)).GetObj();
            o.Success? && o.value == JJObj(Sample.fields, "<root>") && o.value.Exists()
    ensures JJObj(Sample.fields, "<root>").Count() == 11
  {
    SampleSize();
  }

  lemma SampleSize()
    ensures |Sample.fields| == 11
  {
  }

  /** Reading strings and truth values from the sample document. */
  lemma SampleTextAndFlags()
    ensures var o := JJObj(Sample.fields, "<root>");
            o.At("firstName").GetString() == Success("Yury") && o.At("lastName").ToString() == "Korolev"
            && o.At("lastName").AsString() == Some("Korolev") && o.At("unknownKey").ToString("Test") == "Test"
            && o.At("unknownKey").GetString().Failure?
    ensures var o := JJObj(Sample.fields, "<root>");
            o.At("trueFlag").GetBool() == Success(true) && o.At("falseFlag").ToBool() == false
            && o.At("trueFlag").AsBool() == Some(true) && o.At("unknown").ToBool() == false
  {
    SampleText();
    SampleFlags();
  }

  lemma SampleText()
    ensures var o := JJObj(Sample.fields, "<root>");
            o.At("firstName").GetString() == Success("Yury") && o.At("lastName").ToString() == "Korolev"
            && o.At("lastName").AsString() == Some("Korolev") && o.At("unknownKey").ToString("Test") == "Test"
            && o.At("unknownKey").GetString().Failure?
  {
  }

  lemma SampleFlags()
    ensures var o := JJObj(Sample.fields, "<root>");
            o.At("trueFlag").GetBool() == Success(true) && o.At("falseFlag").ToBool() == false
            && o.At("trueFlag").AsBool() == Some(true) && o.At("unknown").ToBool() == false
  {
  }

  /** Reading numbers from the sample document. */
  lemma SampleNumbers()
    ensures var o := JJObj(Sample.fields, "<root>");
            o.At("intValue").GetInt() == Success(13) && o.At("intValue").ToInt() == 13
            && o.At("integerValue").ToInt(11) == 11 && o.At("integerValue").AsInt() == None
            && o.At("intValue").GetUInt() == Success(13) && o.At("unknownKey").ToUInt(11) == 11
            && o.At("unknownKey").ToUInt() == 0 && o.At("intValue").AsUInt() == Some(13)
    ensures var o := JJObj(Sample.fields, "<root>");
            o.At("doubleValue").GetDouble() == Success(TwelvePointOne)
            && o.At("doubleValue").ToDouble(0x4026_3333_3333_3333) == TwelvePointOne
            && o.At("unknownKey").AsDouble() == None && o.At("unknownKey").ToFloat() == 0
            && o.At("doubleValue").GetNumber() == Success(DoubleNumber(TwelvePointOne))
  {
  }

  /** Reading dates, URLs and time zones from the sample document. */
  lemma SampleParsed<D, U, Z>(parseDate: string -> Option<D>, parseURL: string -> Option<U>,
                              lookup: string -> Option<Z>, u: U)
    ensures var o := JJObj(Sample.fields, "<root>");
            o.At("date").AsDate(parseDate) == parseDate("2016-06-10T00:00:00.000Z")
            && o.At("url").ToURL(parseURL, u) == parseURL("http://anjlab.com").GetOr(u)
            && o.At("unknownKey").ToURL(parseURL, u) == u && o.At("unknownKey").AsURL(parseURL) == None
            && o.At("zone").AsTimeZone(lookup) == lookup("Europe/Moscow")
            && o.At("unknownKey").AsTimeZone(lookup) == None
  {
  }

  /** Reading the nested containers of the sample document. */
  lemma SampleContainers()
    ensures var o := JJObj(Sample.fields, "<root>");
            o.At("obj").ToObj().Exists() && o.At("obj").ToObj().path == "<root>.obj"
            && o.At("obj").ToObj().Raw() == Some(map["value" := Int(1)])
            && o.At("arr").ToArr().Exists() && o.At("arr").ToArr().path == "<root>.arr"
            && o.At("arr").ToArr().Raw() == Some([Int(1), Int(2), Int(3)])
            && o.At("url").path == "<root>.url" && o.At("unknownKey").GetObj().Failure?
  {
  }

  /** Every throwing extractor fails on a missing key with the key's path and its own type. */
  lemma UnknownKeyErrors<D, U>(parseDate: string -> Option<D>, parseURL: string -> Option<U>)
    ensures var v := Wrap(Some(Person)).AtKey("unknownKey");
            !v.Exists() && v.path == "<root>.unknownKey"
            && v.GetString() == Failure(WrongType(None, "<root>.unknownKey", "String"))
            && v.GetBool() == Failure(WrongType(None, "<root>.unknownKey", "Bool"))
            && v.GetInt() == Failure(WrongType(None, "<root>.unknownKey", "Int"))
            && v.GetUInt() == Failure(WrongType(None, "<root>.unknownKey", "UInt"))
            && v.GetFloat() == Failure(WrongType(None, "<root>.unknownKey", "Float"))
            && v.GetDouble() == Failure(WrongType(None, "<root>.unknownKey", "Double"))
            && v.GetNumber() == Failure(WrongType(None, "<root>.unknownKey", "NSNumber"))
            && v.GetDate(parseDate) == Failure(WrongType(None, "<root>.unknownKey", "NSDate"))
            && v.GetURL(parseURL) == Failure(WrongType(None, "<root>.unknownKey", "NSURL"))
  {
  }

  /** The full message for a missing string. */
  lemma UnknownKeyMessage(describe: Node -> string)
    ensures Wrap(Some(Person)).AtKey("unknownKey").GetString().error.Description(describe)
         == "JJError.WrongType: Can't convert nil at path: '<root>.unknownKey' to type 'String'"
  {
    UnknownKeyString();
    AbsentMessage("<root>.unknownKey", "String", describe);
    UnknownKeyMessageText();
  }

  lemma UnknownKeyString()
    ensures Wrap(Some(Person)).AtKey("unknownKey").GetString() == Failure(WrongType(None, "<root>.unknownKey", "String"))
  {
    assert "<root>" + "." + "unknownKey" == "<root>.unknownKey";
  }

  lemma UnknownKeyMessageText()
    ensures "JJError.WrongType: Can't convert nil at path: '" + "<root>.unknownKey" + "' to type '" + "String" + "'"
         == "JJError.WrongType: Can't convert nil at path: '<root>.unknownKey' to type 'String'"
  {
    assert "JJError.WrongType: Can't convert nil at path: '" + "<root>.unknownKey"
        == "JJError.WrongType: Can't convert nil at path: '<root>.unknownKey";
    assert "JJError.WrongType: Can't convert nil at path: '<root>.unknownKey" + "' to type '"
        == "JJError.WrongType: Can't convert nil at path: '<root>.unknownKey' to type '";
    assert "JJError.WrongType: Can't convert nil at path: '<root>.unknownKey' to type '" + "String"
        == "JJError.WrongType: Can't convert nil at path: '<root>.unknownKey' to type 'String";
  }

  /** A chain through a missing key keeps going and records where it broke. */
  lemma NestedMissingChain<U>(parseURL: string -> Option<U>)
    ensures var v := Walk(Wrap(Some(Person)), [Key("nested"), Key("unknown"), Index(0)]);
            v == Wrap(Some(Person)).AtKey("nested").AtKey("unknown").AtIndex(0)
            && v == JJVal(None, "<root>.nested<nil>.unknown<nil>[0]")
            && v.GetURL(parseURL) == Failure(WrongType(None, "<root>.nested<nil>.unknown<nil>[0]", "NSURL"))
  {
    var root := Wrap(Some(Person));
    var nested := root.AtKey("nested");
    AbsentWalk(nested, [Key("unknown"), Index(0)]);
    NestedTrail();
    NestedPath();
  }

  lemma NestedTrail()
    ensures NilTrail([Key("unknown"), Index(0)]) == "<nil>.unknown<nil>[0]"
  {
    IndexTrail();
  }

  lemma IndexTrail()
    ensures NilTrail([Index(0)]) == "<nil>[0]"
  {
  }

  /** Asking a dictionary for an array fails with the dictionary itself in the error. */
  lemma ObjectIsNotArray(describe: Node -> string)
    ensures Wrap(Some(Person)).GetArr() == Failure(WrongType(Some(Person), "<root>", "[Any]"))
    ensures Wrap(Some(Person)).GetArr().error.Description(describe)
         == "JJError.WrongType: Can't convert Optional(" + describe(Person) + ") at path: '<root>' to type '[Any]'"
  {
    PresentMessage(Person, "<root>", "[Any]", describe);
    Regroup("JJError.WrongType: Can't convert Optional(" + describe(Person));
    ArrayMismatchTail();
  }

  /** A key mapped to null exists and is null; a missing key neither exists nor is null. */
  lemma NullEntry()
    ensures var o := JJObj(map["k" := Null], RootPath);
            o.At("k").Exists() && o.At("k").IsNull() && !o.At("x").Exists() && !o.At("x").IsNull()
            && o.At("k").GetString().Failure? && o.At("x").GetString().Failure?
  {
  }

  /** A negative integer has no unsigned reading (the accessor as written stops there); a positive one reads as itself. */
  lemma NegativeIsNotUnsigned()
    ensures Wrap(Some(Int(-1))).AsUIntAsWritten() == Trapped && Wrap(Some(Int(-1))).AsUInt() == None
    ensures Wrap(Some(Int(-1))).GetUInt() == Failure(WrongType(Some(Int(-1)), "<root>", "UInt"))
    ensures Wrap(Some(Int(1))).AsUInt() == Some(1)
  {
  }

  // ---------------------------------------------------------------------------
  // Joining string literals
  //
  // Each lemma below states one join of string literals, grouped exactly as
  // the texts above build them. The solver joins literals character by
  // character and slows down sharply when many joins share one proof, so each
  // join is proved on its own and the proofs above call them.
  // ---------------------------------------------------------------------------

  lemma FirstNameLine()
    ensures "  " + "\"" + "firstName" + "\": " + "\"" + "Yury" + "\"" == "  \"firstName\": \"Yury\""
  {
  }

  lemma LastNameLine()
    ensures "  " + "\"" + "lastName" + "\": " + "\"" + "Korolev" + "\"" == "  \"lastName\": \"Korolev\""
  {
  }

  lemma PersonGlue(a: string, b: string)
    requires a == "  \"firstName\": \"Yury\"" && b == "  \"lastName\": \"Korolev\""
    ensures "{\n" + (a + ",\n" + b) + "\n" + "" + "}" == "{\n  \"firstName\": \"Yury\",\n  \"lastName\": \"Korolev\"\n}"
  {
    PersonStep1();
    PersonStep2();
    PersonStep3();
    PersonStep4();
  }

  lemma PersonStep1()
    ensures "{\n" + "  \"firstName\": \"Yury\"" + ",\n" == "{\n  \"firstName\": \"Yury\",\n"
  {
  }

  lemma PersonStep2()
    ensures "{\n  \"firstName\": \"Yury\",\n" + "  \"lastName\": \"Korolev\""
         == "{\n  \"firstName\": \"Yury\",\n  \"lastName\": \"Korolev\""
  {
  }

  lemma PersonStep3()
    ensures "{\n  \"firstName\": \"Yury\",\n  \"lastName\": \"Korolev\"" + "\n"
         == "{\n  \"firstName\": \"Yury\",\n  \"lastName\": \"Korolev\"\n"
  {
  }

  lemma PersonStep4()
    ensures "{\n  \"firstName\": \"Yury\",\n  \"lastName\": \"Korolev\"\n" + "}"
         == "{\n  \"firstName\": \"Yury\",\n  \"lastName\": \"Korolev\"\n}"
  {
  }

  lemma MixedGlue(a: string, b: string, c: string, d: string, e: string)
    requires a == "  1" && b == "  \"Nice\"" && c == "  5.5" && d == "  null" && e == "  \"http://anjlab.com\""
    ensures "[\n" + a + ",\n" + b + ",\n" + c + ",\n" + d + ",\n" + e + "\n" + "" + "]"
         == "[\n  1,\n  \"Nice\",\n  5.5,\n  null,\n  \"http://anjlab.com\"\n]"
  {
    MixedStep1();
    MixedStep2();
    MixedStep3();
    MixedStep4();
    MixedStep5();
  }

  lemma MixedStep1()
    ensures "[\n" + "  1" + ",\n" + "  \"Nice\"" + ",\n" == "[\n  1,\n  \"Nice\",\n"
  {
  }

  lemma MixedStep2()
    ensures "[\n  1,\n  \"Nice\",\n" + "  5.5" + ",\n" == "[\n  1,\n  \"Nice\",\n  5.5,\n"
  {
  }

  lemma MixedStep3()
    ensures "[\n  1,\n  \"Nice\",\n  5.5,\n" + "  null" + ",\n" == "[\n  1,\n  \"Nice\",\n  5.5,\n  null,\n"
  {
  }

  lemma MixedStep4()
    ensures "[\n  1,\n  \"Nice\",\n  5.5,\n  null,\n" + "  \"http://anjlab.com\""
         == "[\n  1,\n  \"Nice\",\n  5.5,\n  null,\n  \"http://anjlab.com\""
  {
  }

  lemma MixedStep5()
    ensures "[\n  1,\n  \"Nice\",\n  5.5,\n  null,\n  \"http://anjlab.com\"" + "\n" + "" + "]"
         == "[\n  1,\n  \"Nice\",\n  5.5,\n  null,\n  \"http://anjlab.com\"\n]"
  {
    assert "[\n  1,\n  \"Nice\",\n  5.5,\n  null,\n  \"http://anjlab.com\"" + "\n"
        == "[\n  1,\n  \"Nice\",\n  5.5,\n  null,\n  \"http://anjlab.com\"\n";
  }

  lemma ShortArrayGlue(a: string, b: string)
    requires a == "  1" && b == "  \"Nice\""
    ensures "[\n" + (a + ",\n" + b) + "\n" + "" + "]" == "[\n  1,\n  \"Nice\"\n]"
  {
  }

  lemma NestedPath()
    ensures ("<root>" + "." + "nested") + "<nil>.unknown<nil>[0]" == "<root>.nested<nil>.unknown<nil>[0]"
  {
  }

  lemma Regroup(head: string)
    ensures head + ") at path: '" + "<root>" + "' to type '" + "[Any]" + "'"
         == head + (") at path: '" + "<root>" + "' to type '" + "[Any]" + "'")
  {
  }

  lemma ArrayMismatchTail()
    ensures ") at path: '" + "<root>" + "' to type '" + "[Any]" + "'" == ") at path: '<root>' to type '[Any]'"
  {
  }
}

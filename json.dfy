/**
 * An already-parsed JSON document and the two reading APIs the instrumentation
 * uses on it: org.json's JSONObject getters, which throw on a missing key or a
 * value of the wrong type, and Jackson's JsonNode accessors, which never throw
 * and fall back to defaults.
 */
module Json {
  import opened Outcomes
  import opened JavaText
  import opened JavaNumbers

  /**
   * A number written with a fraction or an exponent. Java's views of it are
   * taken as given: the text Double.toString prints for its double value, the
   * text Float.toString prints for its float value, and the int
   * Double.intValue gives (truncated toward zero and saturated, so always an
   * int).
   */
  datatype Num = Num(doubleText: string, floatText: string, intValue: Int32)

  datatype Json =
    | JNull
    | JBool(b: bool)
    | JInt(i: int)               // an integer literal, of any size
    | JNum(n: Num)               // a literal with a fraction or an exponent
    | JStr(s: string)
    | JArr(items: seq<Json>)
    | JObj(fields: map<string, Json>)

  /** A Java double obtained from a JSON value: from a number, an integer, or the reading of a text. */
  datatype JavaDouble = NumDouble(n: Num) | IntDouble(i: int) | TextDouble(f: Floating)

  /** A Java float obtained from a JSON value, rendered by Float.toString. */
  datatype JavaFloat = NumFloat(n: Num) | IntFloat(i: int) | TextFloat(f: Floating)

  // ---------------------------------------------------------------- org.json

  /** JSONObject.has: the key is present, even when its value is JSON null. */
  predicate Has(o: map<string, Json>, key: string) {
    key in o
  }

  /** JSONObject.get: the value, or JSONException when the key is missing. */
  function Get(o: map<string, Json>, key: string): (r: Try<Json>)
    ensures r.Ok? <==> Has(o, key)
    ensures r.Ok? ==> r.value == o[key]
  {
    if key in o then Ok(o[key]) else Throws(JsonFormat)
  }

  /** JSONObject.getString: only a JSON string is accepted. */
  function GetString(o: map<string, Json>, key: string): (r: Try<string>)
    ensures r.Ok? <==> Has(o, key) && o[key].JStr?
    ensures r.Ok? ==> r.value == o[key].s
  {
    if key in o && o[key].JStr? then Ok(o[key].s) else Throws(JsonFormat)
  }

  /**
   * JSONObject.getInt: a number is narrowed with intValue(); any other value is
   * read with Integer.parseInt of its text, and a failure is a JSONException.
   */
  function GetInt(o: map<string, Json>, key: string): (r: Try<int>)
    ensures r.Ok? ==> IsInt32(r.value)
    ensures !Has(o, key) ==> r.Throws?
    ensures Has(o, key) && o[key].JInt? ==> r == Ok(Wrap32(o[key].i))
    ensures Has(o, key) && o[key].JNum? ==> r == Ok(o[key].n.intValue)
    ensures Has(o, key) && o[key].JStr? ==> (r.Ok? <==> ParseInt(o[key].s).Ok?)
    ensures Has(o, key) && (o[key].JNull? || o[key].JBool? || o[key].JArr? || o[key].JObj?) ==> r.Throws?
  {
    if key !in o then Throws(JsonFormat)
    else match o[key]
      case JInt(i) => Ok(Wrap32(i))
      case JNum(n) => Ok(n.intValue)
      case JStr(s) => (match ParseInt(s) case Ok(v) => Ok(v) case Throws(_) => Throws(JsonFormat))
      case _ => Throws(JsonFormat)
  }

  /**
   * JSONObject.getDouble: a number, or a string Double.parseDouble reads (the
   * text of any other value never parses); a failure is a JSONException.
   */
  function GetDouble(o: map<string, Json>, key: string): (r: Try<JavaDouble>)
    ensures r.Ok? <==> Has(o, key) && (o[key].JInt? || o[key].JNum? || (o[key].JStr? && ParseFloating(o[key].s).Some?))
    ensures r.Ok? && o[key].JStr? ==> r.value == TextDouble(ParseFloating(o[key].s).value)
    ensures r.Throws? ==> r.fault == JsonFormat
  {
    if key !in o then Throws(JsonFormat)
    else match o[key]
      case JInt(i) => Ok(IntDouble(i))
      case JNum(n) => Ok(NumDouble(n))
      case JStr(s) => (match ParseFloating(s) case Some(f) => Ok(TextDouble(f)) case None => Throws(JsonFormat))
      case _ => Throws(JsonFormat)
  }

  /** JSONObject.getFloat: a number, or a string Float.parseFloat reads; a failure is a JSONException. */
  function GetFloat(o: map<string, Json>, key: string): (r: Try<JavaFloat>)
    ensures r.Ok? <==> Has(o, key) && (o[key].JInt? || o[key].JNum? || (o[key].JStr? && ParseFloating(o[key].s).Some?))
    ensures r.Ok? && o[key].JStr? ==> r.value == TextFloat(ParseFloating(o[key].s).value)
    ensures r.Throws? ==> r.fault == JsonFormat
  {
    if key !in o then Throws(JsonFormat)
    else match o[key]
      case JInt(i) => Ok(IntFloat(i))
      case JNum(n) => Ok(NumFloat(n))
      case JStr(s) => (match ParseFloating(s) case Some(f) => Ok(TextFloat(f)) case None => Throws(JsonFormat))
      case _ => Throws(JsonFormat)
  }

  /** JSONObject.getJSONArray: only a JSON array is accepted. */
  function GetArray(o: map<string, Json>, key: string): (r: Try<seq<Json>>)
    ensures r.Ok? <==> Has(o, key) && o[key].JArr?
    ensures r.Ok? ==> r.value == o[key].items
  {
    if key in o && o[key].JArr? then Ok(o[key].items) else Throws(JsonFormat)
  }

  /** JSONArray.get(0): the first element, or JSONException for an empty array. */
  function First(items: seq<Json>): (r: Try<Json>)
    ensures r.Ok? <==> |items| > 0
    ensures r.Ok? ==> r.value == items[0]
  {
    if |items| > 0 then Ok(items[0]) else Throws(JsonFormat)
  }

  /** A cast `(JSONObject) v`: ClassCastException unless `v` is an object. */
  function AsObject(v: Json): (r: Try<map<string, Json>>)
    ensures r.Ok? <==> v.JObj?
    ensures r.Ok? ==> r.value == v.fields
    ensures r.Throws? ==> r.fault == ClassCast
  {
    if v.JObj? then Ok(v.fields) else Throws(ClassCast)
  }

  // ---------------------------------------------------------------- Jackson

  /** JsonNode.get(name): a field of an object node; null for a missing field or any other node. */
  function Field(node: Json, name: string): (r: Option<Json>)
    ensures r.Some? <==> node.JObj? && name in node.fields
    ensures r.Some? ==> r.value == node.fields[name]
  {
    if node.JObj? && name in node.fields then Some(node.fields[name]) else None
  }

  /** JsonNode.has(name): get(name) is not null (an explicit JSON null counts as present). */
  predicate HasField(node: Json, name: string) {
    Field(node, name).Some?
  }

  /** JsonNode.isInt: an integer literal Jackson stores as an IntNode, i.e. one in the int range. */
  predicate IsIntNode(node: Json) {
    node.JInt? && IsInt32(node.i)
  }

  /** JsonNode.isDouble: a literal with a fraction or exponent, which Jackson stores as a DoubleNode. */
  predicate IsDoubleNode(node: Json) {
    node.JNum?
  }

  /** JsonNode.isTextual. */
  predicate IsTextual(node: Json) {
    node.JStr?
  }

  /**
   * NumberInput.parseAsInt with default 0, behind TextNode.asInt(): the text is
   * trimmed and one leading '+' dropped; a run of digits (after an optional
   * '-') goes to Integer.parseInt, anything else to the (int) cast of
   * Double.parseDouble; a text either rejects gives 0.
   */
  function ParseAsInt(s: string): (r: int)
    ensures IsInt32(r)
    ensures AllBlank(s) ==> r == 0
  {
    var t := Trim(s);
    if |t| == 0 then 0
    else
      var u := if t[0] == '+' then t[1..] else t;
      var from := if t[0] == '-' then 1 else 0;
      if AllDigits(u[from..]) then
        (match ParseInt(u) case Ok(v) => v case Throws(_) => 0)
      else
        (match ParseFloating(u) case Some(f) => NarrowToInt(f) case None => 0)
  }

  /**
   * JsonNode.asInt(): the int a number narrows to, parseAsInt of a text, 1 or
   * 0 for a boolean, and 0 for anything else.
   */
  function AsInt(node: Json): (r: int)
    ensures IsInt32(r)
    ensures IsIntNode(node) ==> r == node.i
    ensures node.JNum? ==> r == node.n.intValue
    ensures node.JStr? ==> r == ParseAsInt(node.s)
    ensures node.JNull? || node.JArr? || node.JObj? ==> r == 0
  {
    match node
    case JInt(i) => Wrap32(i)
    case JNum(n) => n.intValue
    case JStr(s) => ParseAsInt(s)
    case JBool(b) => if b then 1 else 0
    case _ => 0
  }

  /**
   * JsonNode.asDouble(): a number's value, the reading of a text
   * Double.parseDouble accepts, 1.0/0.0 for booleans, else 0.0.
   */
  function AsDouble(node: Json): (r: JavaDouble)
    ensures node.JNum? ==> r == NumDouble(node.n)
    ensures node.JInt? ==> r == IntDouble(node.i)
    ensures node.JStr? && ParseFloating(node.s).Some? ==> r == TextDouble(ParseFloating(node.s).value)
    ensures node.JStr? && ParseFloating(node.s).None? ==> r == IntDouble(0)
    ensures node.JNull? || node.JArr? || node.JObj? ==> r == IntDouble(0)
  {
    match node
    case JInt(i) => IntDouble(i)
    case JNum(n) => NumDouble(n)
    case JStr(s) => (match ParseFloating(s) case Some(f) => TextDouble(f) case None => IntDouble(0))
    case JBool(b) => IntDouble(if b then 1 else 0)
    case _ => IntDouble(0)
  }

  /** JsonNode.asText(): a string's own text, a scalar's printed form, "" for containers. */
  function AsText(node: Json): (r: string)
    ensures node.JStr? ==> r == node.s
    ensures node.JArr? || node.JObj? ==> r == ""
  {
    match node
    case JStr(s) => s
    case JInt(i) => IntToString(i)
    case JNum(n) => n.doubleText
    case JBool(b) => if b then "true" else "false"
    case JNull => "null"
    case _ => ""
  }

  // ---------------------------------------------------------------- number texts

  /** Jackson's asInt reads a text Integer.parseInt accepts as that int. */
  lemma ParseAsIntReadsIntText(s: string)
    requires ParseInt(s).Ok?
    ensures ParseAsInt(s) == ParseInt(s).value
  {
    var a := if IsSign(s[0]) then 1 else 0;
    assert IsDigit(s[|s| - 1]) by {
      assert s[|s| - 1] == s[a..][|s| - 1 - a];
    }
    assert Trim(s) == s;
    if s[0] == '+' {
      assert ParseInt(s[1..]) == ParseInt(s);
    }
  }

  /** Blanks around a text make no difference to Jackson's asInt or asDouble of it. */
  lemma JacksonReadsIgnorePadding(pre: string, s: string, post: string)
    requires AllBlank(pre) && AllBlank(post)
    ensures ParseAsInt(pre + s + post) == ParseAsInt(s)
    ensures AsDouble(JStr(pre + s + post)) == AsDouble(JStr(s))
  {
    TrimIgnoresPadding(pre, s, post);
  }

  /**
   * org.json and Jackson read a number text alike: where getInt reads a text
   * asInt gives the same int, and where getDouble reads one asDouble gives the
   * same double.
   */
  lemma LibrariesAgreeOnNumberText(o: map<string, Json>, key: string)
    requires Has(o, key) && o[key].JStr?
    ensures GetInt(o, key).Ok? ==> AsInt(o[key]) == GetInt(o, key).value
    ensures GetDouble(o, key).Ok? ==> AsDouble(o[key]) == GetDouble(o, key).value
  {
    if GetInt(o, key).Ok? {
      ParseAsIntReadsIntText(o[key].s);
    }
  }

  /** Double.parseDouble accepts NaN, with a sign. */
  lemma SignedNaNReads()
    ensures ParseFloating("-NaN") == Some(NaN)
  {
  }

  /** Double.parseDouble accepts Infinity, with a sign. */
  lemma InfinityReads()
    ensures ParseFloating("-Infinity") == Some(Infinite(true))
  {
  }

  /** A float or double type suffix ends a literal. */
  lemma SuffixReads()
    ensures ParseFloating("1f") == Some(Finite(false, "1", false, 0))
  {
    var t := "1f";
    assert Trim(t) == t && t[0..] == t;
    assert ParseTrimmed(t) == ParseDecimal(false, t);
    DigitRunIs(t, 0, 1);
    assert ExponentTail(t, 1, false) == Some(0);
    assert t[..1] == "1";
  }

  /** An exponent needs digits, a literal needs a digit, and at most one suffix is allowed. */
  lemma MalformedRejected()
    ensures ParseFloating("1e") == None && ParseFloating(".") == None && ParseFloating("1ff") == None
  {
  }

  /**
   * asInt of a decimal fraction is its whole part held to the int range: the
   * text is not all digits, so it is read as a double and cast to int
   * ("512.0" gives 512, "3000000000.0" the int maximum).
   */
  lemma FractionTextNarrows(whole: string, fraction: string)
    requires AllDigits(whole) && |whole| > 0 && AllDigits(fraction)
    ensures ParseAsInt(whole + "." + fraction) == Clamp(DigitsValue(whole))
  {
    var b := whole + "." + fraction;
    var f := Finite(false, whole + fraction, false, -(|fraction| as int));
    assert ParseFloating(b) == Some(f) by {
      assert b[0] == whole[0] && IsDigit(b[0]);
      assert !IsBlank(b[|b| - 1]) by {
        if |fraction| > 0 {
          assert b[|b| - 1] == fraction[|fraction| - 1];
        }
      }
      assert Trim(b) == b && b[0..] == b;
      assert !(|b| >= 2 && (b[1] == 'x' || b[1] == 'X')) by {
        if |whole| > 1 {
          assert b[1] == whole[1];
        }
      }
      assert ParseFloating(b) == ParseDecimal(false, b);
      DecimalFractionReads(false, whole, fraction);
    }
    assert ParseAsInt(b) == NarrowToInt(f) by {
      assert IsDigit(b[0]) && !IsBlank(b[|b| - 1]);
      assert Trim(b) == b && b[0..] == b;
      assert !AllDigits(b) by {
        assert b[|whole|] == '.';
      }
    }
    FractionNarrows(whole, fraction);
  }

  /**
   * asInt of an all-digit text beyond the int range is 0: Integer.parseInt
   * fails on it and Jackson does not retry it as a double.
   */
  lemma LongDigitTextIsZero(s: string)
    requires AllDigits(s) && |s| > 0 && DigitsValue(s) > IntMax
    ensures ParseAsInt(s) == 0
  {
    assert IsDigit(s[0]) && IsDigit(s[|s| - 1]);
    assert Trim(s) == s && s[0..] == s;
    assert ParseInt(s).Throws?;
  }
}

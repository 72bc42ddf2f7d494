/**
 * Serializer of the AWS SDK 2.2 instrumentation: the text of an SDK field
 * value by its shape, and the gen_ai values read from the JSON body of a
 * Bedrock runtime call.
 */
module Serializer {
  import opened Outcomes
  import opened JavaText
  import opened Json

  /**
   * A non-null field value of an SDK object, by the shape the serializer
   * dispatches on. `display` is the object's own toString text.
   */
  datatype Value =
      /** An SdkPojo, with what the JSON marshaller produces for it: None when
          no marshaller is available, the request has no content, or reading
          the content fails. */
    | Pojo(marshalled: Option<string>, display: string)
      /** A java.util.Collection, its elements in iteration order (None is a null element). */
    | Coll(elems: seq<Option<Value>>)
      /** A java.util.Map, its (key, value) entries in iteration order. */
    | MapV(entries: seq<(Option<Value>, Option<Value>)>)
      /** SdkBytes, with its UTF-8 text parsed as a JSON object (None when it is not one). */
    | Bytes(body: Option<map<string, Json>>, display: string)
      /** Any other object. */
    | Simple(text: string)

  /** The keys of a map's entries, in iteration order: Map.keySet(). */
  function Keys(entries: seq<(Option<Value>, Option<Value>)>): (r: seq<Option<Value>>)
    ensures |r| == |entries|
    ensures forall i :: 0 <= i < |r| ==> r[i] == entries[i].0
  {
    if |entries| == 0 then [] else [entries[0].0] + Keys(entries[1..])
  }

  /** The elements a collection or a map contributes to its serialization. */
  function Items(v: Value): seq<Option<Value>>
    requires v.Coll? || v.MapV?
  {
    if v.Coll? then v.elems else Keys(v.entries)
  }

  lemma ItemBelow(v: Value, i: nat)
    requires v.Coll? || v.MapV?
    requires i < |Items(v)| && Items(v)[i].Some?
    ensures Items(v)[i].value < v
  {
    if v.MapV? {
      assert Items(v)[i] == v.entries[i].0;
      assert v.entries[i] < v;
    }
  }

  /**
   * An SdkBytes value reachable through collection elements and map keys. The
   * one-argument serializer has no SdkBytes overload: its SdkBytes branch calls
   * serialize(Object) on the same value again, without end.
   */
  predicate ReachesBytes(v: Value) {
    match v
    case Bytes(_, _) => true
    case Coll(elems) => exists i :: 0 <= i < |elems| && elems[i].Some? && ReachesBytes(elems[i].value)
    case MapV(entries) => exists i :: 0 <= i < |entries| && entries[i].0.Some? && ReachesBytes(entries[i].0.value)
    case _ => false
  }

  /** The element text joining puts in: a null result is appended as "null". */
  function ElementText(t: Option<string>): string {
    if t.None? then "null" else t.value
  }

  /**
   * serialize(Object) on a non-null value: the marshalled JSON of a pojo,
   * "[" + the elements' serializations joined by "," + "]" for a collection
   * (null when that join is empty), the same for a map's key set, and toString
   * for anything else; an SdkBytes value overflows the stack.
   */
  function SerializeValue(v: Value): (r: Try<Option<string>>)
    ensures r.Throws? <==> ReachesBytes(v)
    ensures r.Throws? ==> r.fault == StackOverflow
    ensures (v.Coll? || v.MapV?) && r.Ok? && r.value.Some? ==>
      var s := r.value.value; |s| >= 3 && s[0] == '[' && s[|s| - 1] == ']'
    decreases v, 1
  {
    match v
    case Pojo(marshalled, _) => Ok(marshalled)
    case Coll(_) => Bracket(ElementTexts(v, 0))
    case MapV(_) => Bracket(ElementTexts(v, 0))
    case Bytes(_, _) => Throws(StackOverflow)
    case Simple(text) => Ok(Some(text))
  }

  /** serialize(Collection): null for an empty join, otherwise the join in brackets. */
  function Bracket(texts: Try<seq<string>>): (r: Try<Option<string>>)
    ensures texts.Throws? ==> r == Throws(texts.fault)
    ensures texts.Ok? ==> (r == Ok(None) <==> Join(texts.value, ",") == "")
    ensures texts.Ok? && r != Ok(None) ==> r == Ok(Some("[" + Join(texts.value, ",") + "]"))
  {
    match texts
    case Throws(f) => Throws(f)
    case Ok(parts) =>
      var joined := Join(parts, ",");
      if joined == "" then Ok(None) else Ok(Some("[" + joined + "]"))
  }

  /** The serializations of the items from position `i` on, or the first failure. */
  function ElementTexts(v: Value, i: nat): (r: Try<seq<string>>)
    requires v.Coll? || v.MapV?
    requires i <= |Items(v)|
    ensures r.Ok? ==> |r.value| == |Items(v)| - i
    ensures r.Throws? <==> exists j :: i <= j < |Items(v)| && Items(v)[j].Some? && ReachesBytes(Items(v)[j].value)
    ensures r.Throws? ==> r.fault == StackOverflow
    decreases v, 0, |Items(v)| - i
  {
    if i == |Items(v)| then Ok([])
    else
      var e := Items(v)[i];
      var head := if e.None? then Ok(None) else (ItemBelow(v, i); SerializeValue(e.value));
      match head
      case Throws(f) => Throws(f)
      case Ok(t) =>
        match ElementTexts(v, i + 1)
        case Throws(f) => Throws(f)
        case Ok(rest) => Ok([ElementText(t)] + rest)
  }

  /** serialize(Object): null for a null target. */
  function Serialize(target: Option<Value>): (r: Try<Option<string>>)
    ensures target.None? ==> r == Ok(None)
    ensures r.Throws? <==> target.Some? && ReachesBytes(target.value)
  {
    if target.None? then Ok(None) else SerializeValue(target.value)
  }

  // ---------------------------------------------------------------- properties of serialize(Object)

  /** A map is serialized as the collection of its keys: its values never appear. */
  lemma MapIsItsKeySet(entries: seq<(Option<Value>, Option<Value>)>)
    ensures SerializeValue(MapV(entries)) == SerializeValue(Coll(Keys(entries)))
  {
    SameItemsSameTexts(MapV(entries), Coll(Keys(entries)), 0);
  }

  lemma {:induction false} SameItemsSameTexts(v: Value, w: Value, i: nat)
    requires v.Coll? || v.MapV?
    requires w.Coll? || w.MapV?
    requires Items(v) == Items(w) && i <= |Items(v)|
    ensures ElementTexts(v, i) == ElementTexts(w, i)
    decreases |Items(v)| - i
  {
    if i < |Items(v)| {
      SameItemsSameTexts(v, w, i + 1);
    }
  }

  /** Two maps with the same keys in the same order serialize alike, whatever their values. */
  lemma MapValuesAreIgnored(entries: seq<(Option<Value>, Option<Value>)>, others: seq<(Option<Value>, Option<Value>)>)
    requires Keys(entries) == Keys(others)
    ensures SerializeValue(MapV(entries)) == SerializeValue(MapV(others))
  {
    SameItemsSameTexts(MapV(entries), MapV(others), 0);
  }

  /** The values of `texts` as plain objects. */
  function Texts(texts: seq<string>): (r: seq<Option<Value>>)
    ensures |r| == |texts|
    ensures forall i :: 0 <= i < |r| ==> r[i] == Some(Simple(texts[i]))
  {
    if |texts| == 0 then [] else [Some(Simple(texts[0]))] + Texts(texts[1..])
  }

  lemma {:induction false} TextsOfPlainObjects(v: Value, texts: seq<string>, i: nat)
    requires v.Coll? && |v.elems| == |texts| && i <= |texts|
    requires forall j :: 0 <= j < |texts| ==> v.elems[j] == Some(Simple(texts[j]))
    ensures ElementTexts(v, i) == Ok(texts[i..])
    decreases |texts| - i
  {
    if i < |texts| {
      TextsOfPlainObjects(v, texts, i + 1);
      assert SerializeValue(Simple(texts[i])) == Ok(Some(texts[i]));
      assert texts[i..] == [texts[i]] + texts[i + 1..];
    }
  }

  /**
   * A collection of plain objects whose texts hold no "," and do not end in an
   * empty one serializes to "[...]", and splitting the inside on "," gives the
   * texts back; an empty collection serializes to null.
   */
  lemma CollectionRoundTrip(texts: seq<string>)
    requires forall t :: t in texts ==> ',' !in t
    requires |texts| > 0 ==> texts[|texts| - 1] != ""
    ensures |texts| == 0 ==> SerializeValue(Coll(Texts(texts))) == Ok(None)
    ensures |texts| > 0 ==> exists inner ::
      && SerializeValue(Coll(Texts(texts))) == Ok(Some("[" + inner + "]"))
      && Split(inner, ',') == texts
  {
    TextsOfPlainObjects(Coll(Texts(texts)), texts, 0);
    assert texts[0..] == texts;
    if |texts| > 0 {
      SplitJoin(texts, ',');
      assert Join(texts, ",") != "" by {
        if |texts| == 1 { } else {
          assert Join(texts, ",") == texts[0] + "," + Join(texts[1..], ",");
        }
      }
      var inner := Join(texts, ",");
      assert SerializeValue(Coll(Texts(texts))) == Ok(Some("[" + inner + "]"));
    }
  }

  // ---------------------------------------------------------------- toString

  /**
   * Object.toString of a value: its own text for a plain object, a pojo or
   * SdkBytes; "[e1, e2]" for a collection and "{k1=v1, k2=v2}" for a map, as
   * AbstractCollection and AbstractMap print them, with null printed as "null".
   */
  function ToString(v: Value): (r: string)
    ensures v.Coll? ==> |r| >= 2 && r[0] == '[' && r[|r| - 1] == ']'
    ensures v.MapV? ==> |r| >= 2 && r[0] == '{' && r[|r| - 1] == '}'
    decreases v, 1
  {
    match v
    case Pojo(_, display) => display
    case Coll(_) => "[" + Join(ElementStrings(v, 0), ", ") + "]"
    case MapV(_) => "{" + Join(EntryStrings(v, 0), ", ") + "}"
    case Bytes(_, display) => display
    case Simple(text) => text
  }

  /** String.valueOf of a possibly null value. */
  function ValueOf(e: Option<Value>, ghost parent: Value): string
    requires e.Some? ==> e.value < parent
    decreases parent, 0, 0
  {
    if e.None? then "null" else ToString(e.value)
  }

  function ElementStrings(v: Value, i: nat): (r: seq<string>)
    requires v.Coll? && i <= |v.elems|
    ensures |r| == |v.elems| - i
    decreases v, 0, 1, |v.elems| - i
  {
    if i == |v.elems| then [] else [ValueOf(v.elems[i], v)] + ElementStrings(v, i + 1)
  }

  function EntryStrings(v: Value, i: nat): (r: seq<string>)
    requires v.MapV? && i <= |v.entries|
    ensures |r| == |v.entries| - i
    decreases v, 0, 1, |v.entries| - i
  {
    if i == |v.entries| then []
    else
      assert v.entries[i] < v;
      [ValueOf(v.entries[i].0, v) + "=" + ValueOf(v.entries[i].1, v)] + EntryStrings(v, i + 1)
  }

  // ---------------------------------------------------------------- gen_ai values from a JSON body

  /** String.valueOf(getString(key)). */
  function StringAt(o: map<string, Json>, key: string): (r: Try<Option<string>>)
    ensures r.Ok? <==> GetString(o, key).Ok?
    ensures r.Ok? ==> r.value == Some(GetString(o, key).value)
  {
    match GetString(o, key)
    case Ok(s) => Ok(Some(s))
    case Throws(f) => Throws(f)
  }

  /** String.valueOf(getInt(key)): the decimal text of the int. */
  function IntAt(o: map<string, Json>, key: string): (r: Try<Option<string>>)
    ensures r.Ok? <==> GetInt(o, key).Ok?
    ensures r.Ok? ==> r.value == Some(IntToString(GetInt(o, key).value))
  {
    match GetInt(o, key)
    case Ok(n) => Ok(Some(IntToString(n)))
    case Throws(f) => Throws(f)
  }

  /** String.valueOf(getFloat(key)); `floatText` is Float.toString. */
  function FloatAt(o: map<string, Json>, key: string, floatText: JavaFloat -> string): (r: Try<Option<string>>)
    ensures r.Ok? <==> GetFloat(o, key).Ok?
    ensures r.Ok? ==> r.value == Some(floatText(GetFloat(o, key).value))
  {
    match GetFloat(o, key)
    case Ok(x) => Ok(Some(floatText(x)))
    case Throws(f) => Throws(f)
  }

  /** `(JSONObject) body.get(key)`. */
  function ObjectAt(o: map<string, Json>, key: string): (r: Try<map<string, Json>>)
    ensures r.Ok? <==> Has(o, key) && o[key].JObj?
    ensures r.Ok? ==> r.value == o[key].fields
  {
    match Get(o, key)
    case Ok(v) => AsObject(v)
    case Throws(f) => Throws(f)
  }

  /** `(JSONObject) body.getJSONArray("results").get(0)`. */
  function FirstResult(o: map<string, Json>): (r: Try<map<string, Json>>)
    ensures r.Ok? <==> Has(o, "results") && o["results"].JArr? && |o["results"].items| > 0 && o["results"].items[0].JObj?
    ensures r.Ok? ==> r.value == o["results"].items[0].fields
  {
    match GetArray(o, "results")
    case Throws(f) => Throws(f)
    case Ok(items) =>
      match First(items)
      case Throws(f) => Throws(f)
      case Ok(v) => AsObject(v)
  }

  /** `key` of a nested object when present, null when absent. */
  function Nested(sub: Try<map<string, Json>>, key: string, read: (map<string, Json>, string) -> Try<Option<string>>): Try<Option<string>>
  {
    match sub
    case Throws(f) => Throws(f)
    case Ok(o) => if Has(o, key) then read(o, key) else Ok(None)
  }

  /** getFinishReason: top-level stop_reason, else completionReason of the first result. */
  function FinishReason(body: map<string, Json>): (r: Try<Option<string>>)
  {
    if Has(body, "stop_reason") then StringAt(body, "stop_reason")
    else if Has(body, "results") then Nested(FirstResult(body), "completionReason", StringAt)
    else Ok(None)
  }

  /** getInputTokens: prompt_token_count, else inputTextTokenCount, else usage.input_tokens. */
  function InputTokens(body: map<string, Json>): (r: Try<Option<string>>)
  {
    if Has(body, "prompt_token_count") then IntAt(body, "prompt_token_count")
    else if Has(body, "inputTextTokenCount") then IntAt(body, "inputTextTokenCount")
    else if Has(body, "usage") then Nested(ObjectAt(body, "usage"), "input_tokens", IntAt)
    else Ok(None)
  }

  /**
   * getOutputTokens: generation_token_count, else tokenCount of the first result,
   * else inputTextTokenCount, else usage.output_tokens.
   */
  function OutputTokens(body: map<string, Json>): (r: Try<Option<string>>)
  {
    if Has(body, "generation_token_count") then IntAt(body, "generation_token_count")
    else if Has(body, "results") then Nested(FirstResult(body), "tokenCount", IntAt)
    else if Has(body, "inputTextTokenCount") then IntAt(body, "inputTextTokenCount")
    else if Has(body, "usage") then Nested(ObjectAt(body, "usage"), "output_tokens", IntAt)
    else Ok(None)
  }

  /** getTopP: top_p, else textGenerationConfig.topP. */
  function TopP(body: map<string, Json>, floatText: JavaFloat -> string): (r: Try<Option<string>>)
  {
    if Has(body, "top_p") then FloatAt(body, "top_p", floatText)
    else if Has(body, "textGenerationConfig") then
      Nested(ObjectAt(body, "textGenerationConfig"), "topP", (o, k) => FloatAt(o, k, floatText))
    else Ok(None)
  }

  /** getTemperature: temperature, else textGenerationConfig.temperature. */
  function Temperature(body: map<string, Json>, floatText: JavaFloat -> string): (r: Try<Option<string>>)
  {
    if Has(body, "temperature") then FloatAt(body, "temperature", floatText)
    else if Has(body, "textGenerationConfig") then
      Nested(ObjectAt(body, "textGenerationConfig"), "temperature", (o, k) => FloatAt(o, k, floatText))
    else Ok(None)
  }

  /** getMaxTokens: max_tokens, else max_gen_len, else textGenerationConfig.maxTokenCount. */
  function MaxTokens(body: map<string, Json>): (r: Try<Option<string>>)
  {
    if Has(body, "max_tokens") then IntAt(body, "max_tokens")
    else if Has(body, "max_gen_len") then IntAt(body, "max_gen_len")
    else if Has(body, "textGenerationConfig") then Nested(ObjectAt(body, "textGenerationConfig"), "maxTokenCount", IntAt)
    else Ok(None)
  }

  /** The attribute names the two-argument serializer reads from a body. */
  const BodyAttributes: set<string> := {
    "gen_ai.response.finish_reason", "gen_ai.usage.completion_tokens", "gen_ai.usage.prompt_tokens",
    "gen_ai.request.top_p", "gen_ai.request.temperature", "gen_ai.request.max_tokens"
  }

  /** The switch on the attribute name, before exceptions are caught. */
  function FromBody(attributeName: string, body: map<string, Json>, floatText: JavaFloat -> string): Try<Option<string>>
  {
    match attributeName
    case "gen_ai.response.finish_reason" => FinishReason(body)
    case "gen_ai.usage.completion_tokens" => OutputTokens(body)
    case "gen_ai.usage.prompt_tokens" => InputTokens(body)
    case "gen_ai.request.top_p" => TopP(body, floatText)
    case "gen_ai.request.temperature" => Temperature(body, floatText)
    case "gen_ai.request.max_tokens" => MaxTokens(body)
    case _ => Ok(None)
  }

  /**
   * serialize(attributeName, target): SdkBytes is read as a JSON body and the
   * value for the attribute taken from it; any other non-null value gives its
   * toString whatever the name; a null target, an unknown name, and every
   * runtime exception (malformed JSON, a missing key, a wrong type, an empty
   * results array) give null.
   */
  function SerializeNamed(attributeName: string, target: Option<Value>, floatText: JavaFloat -> string): (r: Option<string>)
    ensures target.None? ==> r.None?
    ensures target.Some? && !target.value.Bytes? ==> r == Some(ToString(target.value))
    ensures target.Some? && target.value.Bytes? && target.value.body.None? ==> r.None?
    ensures target.Some? && target.value.Bytes? && attributeName !in BodyAttributes ==> r.None?
  {
    match target
    case None => None
    case Some(Bytes(body, _)) =>
      if body.None? then None
      else (match FromBody(attributeName, body.value, floatText)
        case Ok(value) => value
        case Throws(_) => None)
    case Some(v) => Some(ToString(v))
  }

  // ---------------------------------------------------------------- properties of the body readers

  /** The body holding only `key` of `body`. */
  function Only(body: map<string, Json>, key: string): (r: map<string, Json>)
    requires key in body
    ensures r.Keys == {key} && r[key] == body[key]
  {
    map[key := body[key]]
  }

  /**
   * The finish reason depends only on the first of stop_reason and results that
   * is present, and is null when neither is.
   */
  lemma FinishReasonPrecedence(body: map<string, Json>)
    ensures Has(body, "stop_reason") ==> FinishReason(body) == FinishReason(Only(body, "stop_reason"))
    ensures !Has(body, "stop_reason") && Has(body, "results") ==> FinishReason(body) == FinishReason(Only(body, "results"))
    ensures !Has(body, "stop_reason") && !Has(body, "results") ==> FinishReason(body) == Ok(None)
  {
  }

  /**
   * A finish reason is the text of a top-level stop_reason, or, when there is
   * none, the text of completionReason in the first element of results.
   */
  lemma FinishReasonSource(body: map<string, Json>, reason: string)
    requires FinishReason(body) == Ok(Some(reason))
    ensures
      || ("stop_reason" in body && body["stop_reason"] == JStr(reason))
      || ("stop_reason" !in body && "results" in body && body["results"].JArr?
          && |body["results"].items| > 0 && body["results"].items[0].JObj?
          && body["results"].items[0].fields.Keys >= {"completionReason"}
          && body["results"].items[0].fields["completionReason"] == JStr(reason))
  {
  }

  /** Input tokens depend only on the first present key of prompt_token_count, inputTextTokenCount, usage. */
  lemma InputTokensPrecedence(body: map<string, Json>)
    ensures Has(body, "prompt_token_count") ==> InputTokens(body) == InputTokens(Only(body, "prompt_token_count"))
    ensures !Has(body, "prompt_token_count") && Has(body, "inputTextTokenCount") ==>
      InputTokens(body) == InputTokens(Only(body, "inputTextTokenCount"))
    ensures !Has(body, "prompt_token_count") && !Has(body, "inputTextTokenCount") && Has(body, "usage") ==>
      InputTokens(body) == InputTokens(Only(body, "usage"))
    ensures !Has(body, "prompt_token_count") && !Has(body, "inputTextTokenCount") && !Has(body, "usage") ==>
      InputTokens(body) == Ok(None)
  {
  }

  /**
   * Output tokens depend only on the first present key of generation_token_count,
   * results, inputTextTokenCount, usage; a results array without tokenCount in
   * its first element gives null even when inputTextTokenCount is present.
   */
  lemma OutputTokensPrecedence(body: map<string, Json>)
    ensures Has(body, "generation_token_count") ==>
      OutputTokens(body) == OutputTokens(Only(body, "generation_token_count"))
    ensures !Has(body, "generation_token_count") && Has(body, "results") ==>
      OutputTokens(body) == OutputTokens(Only(body, "results"))
    ensures !Has(body, "generation_token_count") && !Has(body, "results") && Has(body, "inputTextTokenCount") ==>
      OutputTokens(body) == OutputTokens(Only(body, "inputTextTokenCount"))
    ensures (!Has(body, "generation_token_count") && !Has(body, "results") && !Has(body, "inputTextTokenCount")
      && Has(body, "usage")) ==> OutputTokens(body) == OutputTokens(Only(body, "usage"))
    ensures (!Has(body, "generation_token_count") && !Has(body, "results") && !Has(body, "inputTextTokenCount")
      && !Has(body, "usage")) ==> OutputTokens(body) == Ok(None)
  {
  }

  /** Max tokens depend only on the first present key of max_tokens, max_gen_len, textGenerationConfig. */
  lemma MaxTokensPrecedence(body: map<string, Json>)
    ensures Has(body, "max_tokens") ==> MaxTokens(body) == MaxTokens(Only(body, "max_tokens"))
    ensures !Has(body, "max_tokens") && Has(body, "max_gen_len") ==> MaxTokens(body) == MaxTokens(Only(body, "max_gen_len"))
    ensures !Has(body, "max_tokens") && !Has(body, "max_gen_len") && Has(body, "textGenerationConfig") ==>
      MaxTokens(body) == MaxTokens(Only(body, "textGenerationConfig"))
    ensures !Has(body, "max_tokens") && !Has(body, "max_gen_len") && !Has(body, "textGenerationConfig") ==>
      MaxTokens(body) == Ok(None)
  {
  }

  /** top_p and temperature depend only on their top-level key when present, else on textGenerationConfig. */
  lemma SamplingPrecedence(body: map<string, Json>, floatText: JavaFloat -> string)
    ensures Has(body, "top_p") ==> TopP(body, floatText) == TopP(Only(body, "top_p"), floatText)
    ensures !Has(body, "top_p") && Has(body, "textGenerationConfig") ==>
      TopP(body, floatText) == TopP(Only(body, "textGenerationConfig"), floatText)
    ensures !Has(body, "top_p") && !Has(body, "textGenerationConfig") ==> TopP(body, floatText) == Ok(None)
    ensures Has(body, "temperature") ==> Temperature(body, floatText) == Temperature(Only(body, "temperature"), floatText)
    ensures !Has(body, "temperature") && Has(body, "textGenerationConfig") ==>
      Temperature(body, floatText) == Temperature(Only(body, "textGenerationConfig"), floatText)
    ensures !Has(body, "temperature") && !Has(body, "textGenerationConfig") ==> Temperature(body, floatText) == Ok(None)
  {
  }

  /** A reader result that, when it is a text, is the decimal text of a Java int. */
  ghost predicate IntText(r: Try<Option<string>>) {
    r.Ok? && r.value.Some? ==> exists n :: IsInt32(n) && r.value.value == IntToString(n)
  }

  /** The three token readers only ever produce the text of an int. */
  lemma TokenReadersGiveIntText(body: map<string, Json>)
    ensures IntText(InputTokens(body)) && IntText(OutputTokens(body)) && IntText(MaxTokens(body))
  {
    forall o: map<string, Json>, key: string ensures IntText(IntAt(o, key)) {
      if IntAt(o, key).Ok? {
        assert IsInt32(GetInt(o, key).value);
      }
    }
  }

  /**
   * A token count written by the two-argument serializer is the decimal text of
   * a Java int: parsing it back gives an int whose text it is.
   */
  lemma TokenCountsParseBack(attributeName: string, body: map<string, Json>, display: string, floatText: JavaFloat -> string, text: string)
    requires attributeName in {"gen_ai.usage.prompt_tokens", "gen_ai.usage.completion_tokens", "gen_ai.request.max_tokens"}
    requires SerializeNamed(attributeName, Some(Bytes(Some(body), display)), floatText) == Some(text)
    ensures ParseInt(text).Ok? && IntToString(ParseInt(text).value) == text
  {
    TokenReadersGiveIntText(body);
    assert FromBody(attributeName, body, floatText) == Ok(Some(text));
    var n :| IsInt32(n) && text == IntToString(n);
    IntTextRoundTrip(n);
  }
}

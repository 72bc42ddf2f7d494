/**
 * The OpenTelemetry AttributesBuilder the extractors write into: a map from
 * attribute name to a typed value, where a put replaces the earlier value
 * and a put of a null string is ignored.
 */
module Attributes {
  import opened Outcomes
  import opened Json

  /** A recorded attribute value: a string, a long (widened from an int) or a double. */
  datatype AttrValue = StrValue(s: string) | LongValue(n: int) | DoubleValue(d: JavaDouble)

  type Attrs = map<string, AttrValue>

  /** What an extractor call leaves behind: the attributes written, and the throwable it ended with, if any. */
  datatype Outcome = Outcome(attrs: Attrs, fault: Option<Fault>)

  /** put(AttributeKey<String>, value): a null value leaves the builder as it was. */
  function PutText(attrs: Attrs, key: string, value: Option<string>): (r: Attrs)
    ensures value.None? ==> r == attrs
    ensures value.Some? ==> key in r && r[key] == StrValue(value.value)
    ensures forall k :: k != key ==> (k in r <==> k in attrs) && (k in r ==> r[k] == attrs[k])
  {
    match value
    case None => attrs
    case Some(v) => attrs[key := StrValue(v)]
  }

  class AttributesBuilder {
    var attrs: Attrs

    constructor()
      ensures attrs == map[]
    {
      attrs := map[];
    }

    /** put(AttributeKey<String>, String), which ignores a null value. */
    method Put(key: string, value: Option<string>)
      modifies this
      ensures attrs == PutText(old(attrs), key, value)
    {
      if value.Some? {
        attrs := attrs[key := StrValue(value.value)];
      }
    }

    /** put(String, int): the int becomes a long attribute. */
    method PutLong(key: string, n: int)
      modifies this
      ensures attrs == old(attrs)[key := LongValue(n)]
    {
      attrs := attrs[key := LongValue(n)];
    }

    /** put(String, double). */
    method PutDouble(key: string, d: JavaDouble)
      modifies this
      ensures attrs == old(attrs)[key := DoubleValue(d)]
    {
      attrs := attrs[key := DoubleValue(d)];
    }
  }
}

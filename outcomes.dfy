/** Nullable values and Java-style abrupt completion. */
module Outcomes {

  /** A Java reference that may be null. */
  datatype Option<T> = None | Some(value: T)

  /** The kind of throwable a Java call completed with. */
  datatype Fault =
    | JsonFormat        // org.json JSONException: missing key, wrong type, malformed text
    | NumberFormat      // NumberFormatException from Integer.parseInt
    | ClassCast         // a downcast to JSONObject of something else
    | IndexOutOfBounds  // an array access past the end
    | NullPointer       // a method call on null
    | StackOverflow     // unbounded self-recursion
    | IllegalState      // Collectors.toMap meeting a duplicate key
    | JsonProcessing    // Jackson JsonProcessingException: text that is not JSON

  /** The result of a Java call: a value, or a throwable that propagates. */
  datatype Try<T> = Ok(value: T) | Throws(fault: Fault)
}

/** The streaming JSON layer the action is read from and written to (Jackson's
    JsonParser and JsonGenerator), reduced to the tokens and coercions the action uses. */
module JsonStream {
  import opened Basics

  /** The tokens a streaming JSON parser reports, named as Jackson names them.
      A nested object or array that is the value of a field is one `Nested` token:
      the model sees it only as a unit that `skipChildren` passes over. */
  datatype Token =
    | StartObject
    | EndObject
    | FieldName(name: string)
    | ValueTrue
    | ValueFalse
    | ValueNumberInt(n: int)
    | ValueNumberFloat(x: real)
    | ValueOther   // a string, null or embedded object
    | Nested
  {
    /** A token that can stand as the value of a field. */
    predicate IsValue() {
      !(StartObject? || EndObject? || FieldName?)
    }

    predicate IsNumeric() {
      ValueNumberInt? || ValueNumberFloat?
    }

    predicate IsBoolean() {
      ValueTrue? || ValueFalse?
    }
  }

  /** The error the parser raises when a number does not fit a 32-bit int. */
  datatype JsonError = NumberOutOfIntRange

  function BooleanToken(b: bool): Token {
    if b then ValueTrue else ValueFalse
  }

  /** The bounds the parser checks a floating-point value against before
      converting it to an int (Integer.MIN_VALUE and Integer.MAX_VALUE as doubles). */
  const MinIntReal: real := -2147483648.0
  const MaxIntReal: real := 2147483647.0

  /** Conversion of a floating-point value to an integer, rounding toward zero. */
  function Truncate(x: real): (n: int)
    ensures 0.0 <= x ==> n as real <= x < n as real + 1.0
    ensures x < 0.0 ==> n as real - 1.0 < x <= n as real
  {
    if x >= 0.0 then x.Floor else -((-x).Floor)
  }

  /** The parser's int value of the current numeric token: an integer that does not
      fit 32 bits, or a floating-point value outside the int range, is an error;
      a floating-point value inside it is truncated. */
  function IntValue(t: Token): Result<int32, JsonError>
    requires t.IsNumeric()
  {
    if t.ValueNumberInt? then
      if IsInt32(t.n) then Success(t.n as int32) else Failure(NumberOutOfIntRange)
    else
      if MinIntReal <= t.x <= MaxIntReal then Success(Truncate(t.x) as int32)
      else Failure(NumberOutOfIntRange)
  }

  /** A JSON generator: the tokens written so far, in order. */
  class Generator {
    var written: seq<Token>

    constructor ()
      ensures written == []
    {
      written := [];
    }

    method WriteNumber(n: int32)
      modifies this
      ensures written == old(written) + [ValueNumberInt(n as int)]
    {
      written := written + [ValueNumberInt(n as int)];
    }

    method WriteStartObject()
      modifies this
      ensures written == old(written) + [StartObject]
    {
      written := written + [StartObject];
    }

    method WriteEndObject()
      modifies this
      ensures written == old(written) + [EndObject]
    {
      written := written + [EndObject];
    }

    method WriteNumberField(name: string, n: int32)
      modifies this
      ensures written == old(written) + [FieldName(name), ValueNumberInt(n as int)]
    {
      written := written + [FieldName(name), ValueNumberInt(n as int)];
    }

    method WriteBooleanField(name: string, b: bool)
      modifies this
      ensures written == old(written) + [FieldName(name), BooleanToken(b)]
    {
      written := written + [FieldName(name), BooleanToken(b)];
    }
  }
}

/**
  Validation-error shaping (pkg/validator/validator.go).

  The validation library checks a struct and reports each failed constraint
  as a field name and the tag of the rule that failed. `Validate` turns that
  report into the records sent to clients: one per failure, in the library's
  order, with the field name lowercased and a fixed message.
*/
module Validator {

  /** One failed constraint, as the library reports it: `err.Field()` and `err.Tag()`. */
  datatype FieldError = FieldError(field: string, tag: string)

  /**
    What `validate.Struct(data)` returns: nil, a `ValidationErrors` list, or
    some other error (the library's complaint that `data` is not a struct).
  */
  datatype StructResult =
    | NoErrors
    | FieldErrors(errs: seq<FieldError>)
    | InvalidValidation(message: string)

  datatype ValidationError = ValidationError(field: string, message: string)

  // ---------------------------------------------------------------------
  // strings.ToLower
  // ---------------------------------------------------------------------

  predicate IsUpper(c: char) {
    'A' <= c <= 'Z'
  }

  function LowerChar(c: char): (d: char)
    ensures !IsUpper(d)
    ensures IsUpper(c) ==> d as int == c as int + 32
    ensures !IsUpper(c) ==> d == c
  {
    if IsUpper(c) then (c as int + 32) as char else c
  }

  /** `strings.ToLower` on ASCII letters: each upper-case letter becomes its lower-case form. */
  function ToLower(s: string): (r: string)
    ensures |r| == |s|
    ensures forall i | 0 <= i < |s| :: r[i] == LowerChar(s[i])
  {
    seq(|s|, i requires 0 <= i < |s| => LowerChar(s[i]))
  }

  /** Lowercasing leaves no upper-case letter. */
  lemma ToLowerHasNoUpper(s: string)
    ensures forall i | 0 <= i < |s| :: !IsUpper(ToLower(s)[i])
  {
  }

  /** Lowercasing an already lowercased name changes nothing. */
  lemma ToLowerIdempotent(s: string)
    ensures ToLower(ToLower(s)) == ToLower(s)
  {
    var t := ToLower(s);
    assert forall i | 0 <= i < |t| :: ToLower(t)[i] == t[i];
  }

  // ---------------------------------------------------------------------
  // The message
  // ---------------------------------------------------------------------

  const MessagePrefix := "field validation for '"
  const MessageMiddle := "' failed on the '"
  const MessageSuffix := "' tag"

  /** `fmt.Sprintf("field validation for '%s' failed on the '%s' tag", field, tag)`. */
  function Message(field: string, tag: string): (m: string)
    ensures |m| == |MessagePrefix| + |field| + |MessageMiddle| + |tag| + |MessageSuffix|
  {
    MessagePrefix + field + MessageMiddle + tag + MessageSuffix
  }

  /** The message names the field and the tag, each where the template puts it. */
  lemma MessageParts(field: string, tag: string)
    ensures var m := Message(field, tag);
      var f := |MessagePrefix|;
      var t := f + |field| + |MessageMiddle|;
      && m[..f] == MessagePrefix
      && m[f..f + |field|] == field
      && m[f + |field|..t] == MessageMiddle
      && m[t..t + |tag|] == tag
      && m[t + |tag|..] == MessageSuffix
  {
    var m := Message(field, tag);
    var f := |MessagePrefix|;
    var t := f + |field| + |MessageMiddle|;
    assert m == MessagePrefix + field + MessageMiddle + tag + MessageSuffix;
    assert m[..f] == MessagePrefix;
    assert m[f..f + |field|] == field;
    assert m[f + |field|..t] == MessageMiddle;
    assert m[t..t + |tag|] == tag;
    assert m[t + |tag|..] == MessageSuffix;
  }

  /** Two messages about fields of the same length agree only when field and tag agree. */
  lemma MessageInjective(f1: string, t1: string, f2: string, t2: string)
    requires |f1| == |f2|
    requires Message(f1, t1) == Message(f2, t2)
    ensures f1 == f2 && t1 == t2
  {
    MessageParts(f1, t1);
    MessageParts(f2, t2);
  }

  // ---------------------------------------------------------------------
  // Validate
  // ---------------------------------------------------------------------

  /** The record for one library error: the lowercased field, and the message about it. */
  function Shape(e: FieldError): (v: ValidationError)
    ensures v.field == ToLower(e.field)
    ensures v.message == Message(v.field, e.tag)
  {
    var field := ToLower(e.field);
    ValidationError(field, Message(field, e.tag))
  }

  /** The records for a list of library errors, one each, in order. */
  function ShapeAll(errs: seq<FieldError>): (out: seq<ValidationError>)
    ensures |out| == |errs|
    ensures forall i | 0 <= i < |errs| :: out[i] == Shape(errs[i])
  {
    seq(|errs|, i requires 0 <= i < |errs| => Shape(errs[i]))
  }

  /** Shaping works error by error: the records for a concatenation are the concatenated records. */
  lemma ShapeAllAppend(a: seq<FieldError>, b: seq<FieldError>)
    ensures ShapeAll(a + b) == ShapeAll(a) + ShapeAll(b)
  {
    var l := ShapeAll(a + b);
    var r := ShapeAll(a) + ShapeAll(b);
    forall i | 0 <= i < |l| ensures l[i] == r[i] {
      if i < |a| {
        assert (a + b)[i] == a[i];
      } else {
        assert (a + b)[i] == b[i - |a|];
      }
    }
  }

  /** Every record's field is already lower case: lowercasing it again changes nothing. */
  lemma ShapedFieldsAreLower(errs: seq<FieldError>)
    ensures forall i | 0 <= i < |errs| :: ToLower(ShapeAll(errs)[i].field) == ShapeAll(errs)[i].field
  {
    forall i | 0 <= i < |errs| ensures ToLower(ShapeAll(errs)[i].field) == ShapeAll(errs)[i].field {
      ToLowerIdempotent(errs[i].field);
    }
  }

  /**
    Validate: nil when the library reports nothing; otherwise one record per
    reported error, in order. A report that is not a list of field errors
    makes the source's type assertion panic, so it is excluded here.
  */
  method Validate(result: StructResult) returns (validationErrors: seq<ValidationError>)
    requires !result.InvalidValidation?
    ensures result.NoErrors? ==> validationErrors == []
    ensures result.FieldErrors? ==> validationErrors == ShapeAll(result.errs)
  {
    validationErrors := [];
    if result.NoErrors? {
      return;
    }
    var errs := result.errs;
    var i := 0;
    while i < |errs|
      invariant 0 <= i <= |errs|
      invariant validationErrors == ShapeAll(errs[..i])
    {
      var field := ToLower(errs[i].field);
      var message := Message(field, errs[i].tag);
      ShapeAllAppend(errs[..i], [errs[i]]);
      assert errs[..i + 1] == errs[..i] + [errs[i]];
      validationErrors := validationErrors + [ValidationError(field, message)];
      i := i + 1;
    }
    assert errs[..i] == errs;
  }
}

/** The compiled JSON-Schema validator, kept abstract: the required-field check
    is explicit, every other rule (types, `transform` coercion, stripping of
    undeclared properties) is a normalising function carried by the schema. */
module Schemas {
  import opened Json

  /** Pass with the normalised body, or fail with the validator's error list. */
  datatype Verdict = Valid(body: Record) | Invalid(errors: seq<Value>)

  datatype Schema = Schema(required: seq<string>, rules: Record -> Verdict)

  /** The required fields `body` lacks, in schema order. */
  function MissingFields(required: seq<string>, body: Record): (m: seq<string>)
    ensures forall f :: f in m <==> f in required && f !in body
  {
    if required == [] then []
    else (if required[0] in body then [] else [required[0]]) + MissingFields(required[1..], body)
  }

  /** The error object reported for one missing required property. */
  function RequiredError(field: string): Value {
    Obj(map["keyword" := Str("required"), "params" := Obj(map["missingProperty" := Str(field)])])
  }

  /** Running the compiled validator on a body (all errors are collected). */
  function Validate(schema: Schema, body: Record): (v: Verdict)
    ensures (exists f :: f in schema.required && f !in body) ==> v.Invalid?
    ensures (forall f :: f in schema.required ==> f in body) ==> v == schema.rules(body)
  {
    var missing := MissingFields(schema.required, body);
    assert missing != [] ==> missing[0] in missing;
    if missing == [] then schema.rules(body)
    else
      var ruleErrors := match schema.rules(body) case Valid(_) => [] case Invalid(es) => es;
      Invalid(seq(|missing|, i requires 0 <= i < |missing| => RequiredError(missing[i])) + ruleErrors)
  }
}

/** The structured-output schema sent with every request, and what it means for
    a reply value to satisfy it. */
module Schema {
  import opened Wrappers
  import opened Json

  const SuggestedCommandKey := "suggested_exact_command"
  const ExplanationKey := "command_explanation"
  const SuggestedCommandDescription :=
    "ONLY the exact command that a user could be looking to type, no explanations here."

  /** `response_schema()`: an object with two string properties, both required,
      and no other property allowed. */
  function ResponseSchema(): Value
  {
    Object(map[
      "type" := Str("object"),
      "properties" := Object(map[
        SuggestedCommandKey := Object(map[
          "type" := Str("string"),
          "description" := Str(SuggestedCommandDescription)]),
        ExplanationKey := Object(map["type" := Str("string")])]),
      "required" := Array([Str(SuggestedCommandKey), Str(ExplanationKey)]),
      "additionalProperties" := Bool(false)])
  }

  // The part of JSON Schema the response schema uses: "type", "properties"
  // (each with its own "type"), "required" and "additionalProperties".

  /** The property schemas a schema declares. */
  function Properties(schema: Value): map<string, Value>
  {
    match Get(schema, "properties")
    case Some(Object(props)) => props
    case _ => map[]
  }

  /** The member names a schema lists under "required". */
  function RequiredKeys(schema: Value): set<string>
  {
    match Get(schema, "required")
    case Some(Array(items)) => set i | 0 <= i < |items| && items[i].Str? :: items[i].s
    case _ => {}
  }

  /** True when the schema forbids members it does not declare. */
  predicate Closed(schema: Value)
  {
    Get(schema, "additionalProperties") == Some(Bool(false))
  }

  /** True when `v` has the kind the schema's "type" names (any kind if it names none). */
  predicate HasDeclaredType(schema: Value, v: Value)
  {
    match Get(schema, "type")
    case Some(Str(t)) => TypeName(v) == t
    case _ => true
  }

  /** True when the value `v` satisfies `schema`. */
  predicate Conforms(schema: Value, v: Value)
  {
    && HasDeclaredType(schema, v)
    && (v.Object? ==>
          && RequiredKeys(schema) <= v.fields.Keys
          && (forall k :: k in v.fields && k in Properties(schema) ==>
                HasDeclaredType(Properties(schema)[k], v.fields[k]))
          && (Closed(schema) ==> v.fields.Keys <= Properties(schema).Keys))
  }

  /** The response schema requires exactly the two members, declares exactly
      those two, types both as strings and admits nothing else. */
  lemma ResponseSchemaShape()
    ensures RequiredKeys(ResponseSchema()) == {SuggestedCommandKey, ExplanationKey}
    ensures Properties(ResponseSchema()).Keys == {SuggestedCommandKey, ExplanationKey}
    ensures forall k :: k in Properties(ResponseSchema()) ==>
              Get(Properties(ResponseSchema())[k], "type") == Some(Str("string"))
    ensures Closed(ResponseSchema())
    ensures Get(ResponseSchema(), "type") == Some(Str("object"))
  {
    var items := [Str(SuggestedCommandKey), Str(ExplanationKey)];
    assert Get(ResponseSchema(), "required") == Some(Array(items));
    var req := set i | 0 <= i < |items| && items[i].Str? :: items[i].s;
    assert items[0].s in req && items[1].s in req;
    assert req == {SuggestedCommandKey, ExplanationKey};
  }

  /** A value satisfies the response schema exactly when it is an object whose
      members are the two named ones, both strings. */
  lemma ConformsExactly(v: Value)
    ensures Conforms(ResponseSchema(), v) <==>
              && v.Object?
              && v.fields.Keys == {SuggestedCommandKey, ExplanationKey}
              && v.fields[SuggestedCommandKey].Str?
              && v.fields[ExplanationKey].Str?
  {
    ResponseSchemaShape();
    var props := Properties(ResponseSchema());
    if v.Object? && v.fields.Keys == {SuggestedCommandKey, ExplanationKey}
       && v.fields[SuggestedCommandKey].Str? && v.fields[ExplanationKey].Str?
    {
      forall k | k in v.fields && k in props
        ensures HasDeclaredType(props[k], v.fields[k])
      {
        assert k == SuggestedCommandKey || k == ExplanationKey;
      }
    }
    if Conforms(ResponseSchema(), v) {
      assert HasDeclaredType(props[SuggestedCommandKey], v.fields[SuggestedCommandKey]);
      assert HasDeclaredType(props[ExplanationKey], v.fields[ExplanationKey]);
    }
  }
}

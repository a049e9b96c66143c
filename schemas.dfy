/** The structured-output schema descriptors handed to the Gemini call (`Type.OBJECT`,
    `Type.STRING`, ...). Field descriptions are natural-language prompts and are not modelled. */
module Schemas {

  datatype Schema =
    | StringSchema
    | IntegerSchema
    | BooleanSchema
    | ArraySchema(items: Schema)
    | ObjectSchema(properties: seq<(string, Schema)>, required: seq<string>)

  /** The names of an object schema's properties. */
  function PropertyNames(properties: seq<(string, Schema)>): set<string>
  {
    set i | 0 <= i < |properties| :: properties[i].0
  }

  /** The schema of property `name`, if the object schema declares one. */
  function PropertySchema(properties: seq<(string, Schema)>, name: string): (r: Schema)
    requires name in PropertyNames(properties)
    ensures exists i :: 0 <= i < |properties| && properties[i] == (name, r)
  {
    if properties[0].0 == name then properties[0].1
    else
      assert name in PropertyNames(properties[1..]) by {
        var i :| 0 <= i < |properties| && properties[i].0 == name;
        assert properties[1..][i - 1].0 == name;
      }
      PropertySchema(properties[1..], name)
  }

  /** Every required field of an object schema is one of its properties. */
  predicate RequiredAreProperties(s: Schema)
  {
    s.ObjectSchema? ==> forall i :: 0 <= i < |s.required| ==> s.required[i] in PropertyNames(s.properties)
  }
}

/** Tool schemas and tool choice (packages/core/src/llm/types/tool.ts). */
module ToolTypes {
  import opened Wrappers
  import opened Json

  /** `UnifiedToolSchema`; `parameters` is the JSON-schema value, any JSON value at run time. */
  datatype ToolSchema = ToolSchema(name: string, description: string, parameters: Json)

  /** `UnifiedToolChoice`: `'auto' | 'none' | 'required' | { name }`. */
  datatype ToolChoice = AutoChoice | NoneChoice | RequiredChoice | NamedChoice(name: string)

  /** `createToolSchema`. An undefined `required` (the source keeps the key with value `undefined`)
      is represented by the key's absence. */
  function CreateToolSchema(name: string, description: string, properties: map<string, Json>,
                            required: Option<seq<string>>): (s: ToolSchema)
    ensures s.name == name && s.description == description
    ensures s.parameters.JObj?
    ensures "type" in s.parameters.fields && s.parameters.fields["type"] == JStr("object")
    ensures "properties" in s.parameters.fields && s.parameters.fields["properties"] == JObj(properties)
    ensures "required" in s.parameters.fields <==> required.Some?
    ensures required.Some? ==>
              s.parameters.fields["required"] == JArr(seq(|required.value|, i requires 0 <= i < |required.value| => JStr(required.value[i])))
    ensures s.parameters.fields.Keys <= {"type", "properties", "required"}
  {
    var base := map["type" := JStr("object"), "properties" := JObj(properties)];
    var fields := match required
      case Some(req) => base["required" := JArr(seq(|req|, i requires 0 <= i < |req| => JStr(req[i])))]
      case None => base;
    ToolSchema(name, description, JObj(fields))
  }

  /** `isValidToolSchema`: a non-empty name and an object-valued `parameters` (arrays are objects to
      `typeof`). `name` and `description` are strings by type. */
  predicate IsValidToolSchema(s: ToolSchema) {
    |s.name| > 0 && (s.parameters.JObj? || s.parameters.JArr?)
  }

  /** A schema built by `createToolSchema` is valid iff the given name is non-empty. */
  lemma CreatedSchemaValidity(name: string, description: string, properties: map<string, Json>,
                              required: Option<seq<string>>)
    ensures IsValidToolSchema(CreateToolSchema(name, description, properties, required)) <==> name != ""
  {
  }

  /** Validity does not depend on the description and rejects null and scalar parameters. */
  lemma ValidityRejectsScalars(s: ToolSchema, d: string)
    ensures IsValidToolSchema(s) <==> IsValidToolSchema(s.(description := d))
    ensures s.parameters.JNull? || s.parameters.JStr? || s.parameters.JNum? || s.parameters.JBool? ==> !IsValidToolSchema(s)
  {
  }
}

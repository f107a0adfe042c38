/** The `number` schema variant and its builder. */
module NumberSchemas {
  import opened Wrappers
  import opened Json

  /** The type tag of every number schema. */
  const TYPE_ID: string := "number"

  /** The properties a schema keeps besides the ones it understands. */
  type Others = map<string, Json>

  /** A number schema: documentation, the optional flag, the field name used
      inside an object schema, and the preserved unrecognised properties.
      Absent (null) references are `None`. */
  datatype NumberSchema = NumberSchema(
    doc: Option<string>,
    optional: bool,
    name: Option<string>,
    others: Option<Others>)
  {
    /** The type tag: always the number tag, whatever the fields. */
    function Type(): (t: string)
      ensures t == TYPE_ID && t == "number"
    {
      TYPE_ID
    }

    /** A builder whose fields start out as this schema's. */
    function GetBuilder(): (b: Builder)
      ensures b.Build() == this
    {
      BuilderFrom(this)
    }
  }

  /** The public constructor: keeps doc, optional and name as given and
      preserves no other properties. */
  function NewNumberSchema(doc: Option<string>, optional: bool, name: Option<string>): (s: NumberSchema)
    ensures s.others == None
    ensures s.doc == doc && s.optional == optional && s.name == name
    ensures s == NumberSchemaWithOthers(doc, optional, name, None)
  {
    NumberSchemaWithOthers(doc, optional, name, None)
  }

  /** The protected constructor, which also keeps the preserved properties. */
  function NumberSchemaWithOthers(doc: Option<string>, optional: bool, name: Option<string>, others: Option<Others>): (s: NumberSchema)
    ensures s.Type() == TYPE_ID
    ensures s.doc == doc && s.optional == optional && s.name == name && s.others == others
  {
    NumberSchema(doc, optional, name, others)
  }

  /** The builder's current values. The setters that change them belong to
      the general schema builder. */
  datatype Builder = Builder(
    doc: Option<string>,
    optional: bool,
    name: Option<string>,
    others: Option<Others>)
  {
    /** A number schema made of exactly the builder's current values. */
    function Build(): (s: NumberSchema)
      ensures s.doc == doc && s.optional == optional && s.name == name && s.others == others
      ensures BuilderFrom(s) == this
    {
      NumberSchemaWithOthers(doc, optional, name, others)
    }
  }

  /** A builder based off an existing schema: it starts with the original's
      doc, optional flag, name and preserved properties. */
  function BuilderFrom(original: NumberSchema): (b: Builder)
    ensures b.doc == original.doc && b.optional == original.optional
    ensures b.name == original.name && b.others == original.others
  {
    Builder(original.doc, original.optional, original.name, original.others)
  }

  /** Building and taking a builder are inverse: every builder is the builder
      of the schema it builds, and every schema is rebuilt unchanged. */
  lemma BuildRoundTrip(s: NumberSchema, b: Builder)
    ensures s.GetBuilder().Build() == s
    ensures b.Build().GetBuilder() == b
    ensures b.Build() == s <==> BuilderFrom(s) == b
  {
  }
}

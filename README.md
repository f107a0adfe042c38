# Concordia driver and number schema, in Dafny

Concordia describes JSON data with a small schema language and validates
JSON values against it. This project models two parts of its Java
implementation:

- the `Concordia` driver (`Driver` module, `Concordia.dfy`): its
  constructors, which reject null arguments, fall back to the basic
  validation controller, read a schema document, and then run the
  post-construction check (controller validation, root must be an object or
  array schema, root must not be optional, walk of the sub-schema tree);
  its data validation, `equals` and `hashCode`;
- the `number` schema variant (`NumberSchemas` module, `NumberSchema.dfy`):
  its fixed type tag, its lack of sub-schemas, its constructors and its
  builder.

The remaining schema variants are kept abstract (`Schemas` module,
`Schema.dfy`): object and array schemas carry their optional flag and
sub-schemas, every other variant also its type tag. Behaviour the driver
calls but does not define is a parameter of type `Controllers.External`:
the controller's `validate(schema)` and `validate(schema, data)`, the JSON
reader (one function for documents read from a stream, another for the
next value of a caller's parser, which reads with that parser's own
position and features), and the `hashCode` of controllers and schemas. Java `null` is
`Wrappers.Option.None`; a thrown exception is a `Failure`/`Fail` carrying a
`Driver.Error`.

Java constructors that can throw become static factory methods
(`Concordia.FromSchema`, `FromSchemaWith`, `FromText`, `FromTextWith`,
`FromStream`, `FromStreamWith`, `FromParser`). Each allocates the instance
with its fields assigned (`Init`), runs `Setup` on it and returns it only if
the check passed, as a Java constructor that throws leaves no instance.
Each is proved to agree with a pure specification function
(`ConstructFromSchema`, `ConstructFromText`, ...) about which the
properties are stated. `hashCode` is modelled with Java's 32-bit
wrap-around after every operation, and is proved equal to the closed form
`31 * (31 * 1 + h(controller)) + h(schema)` taken modulo 2^32.

Where the documentation and the code disagree the model follows the code:
the two `String` constructors are documented to throw
`IllegalArgumentException` for a null schema, but they call
`schema.getBytes()` first, so a null text ends in a `NullPointerException`
(`Driver.ConstructFromText`).

## Model

| member | source | states |
|---|---|---|
| `Driver.SetupCheck` | lang/java/src/name/jenkins/paul/john/concordia/Concordia.java:465-487 | the check passes exactly when the controller accepts the schema and the root is a non-optional object or array schema; every failure is the controller's rejection, the root-type message or the optional-root message |
| `Driver.SetupReportsFirstFailure` | lang/java/src/name/jenkins/paul/john/concordia/Concordia.java:467-487 | the checks run in order: a controller rejection is reported whatever the root is, a wrong root type is reported even for an optional root |
| `Driver.Established` | lang/java/src/name/jenkins/paul/john/concordia/Concordia.java:465-491 | after the check, an instance exists exactly when the check passes, and it holds the schema and controller assigned before the check |
| `Driver.WithFallback` | lang/java/src/name/jenkins/paul/john/concordia/Concordia.java:302-309 | a null controller is replaced by the basic controller, a non-null one is kept |
| `Driver.ConstructFromSchema` | lang/java/src/name/jenkins/paul/john/concordia/Concordia.java:202-222 | a null schema fails with "The schema is null." before anything else, then a null controller fails with "The controller is null."; success exactly when both are non-null and the check passes, keeping both |
| `Driver.ConstructFromSchemaDefault` | lang/java/src/name/jenkins/paul/john/concordia/Concordia.java:171-185 | a null schema fails with an illegal argument; otherwise the basic controller is always used and success means the check passed |
| `Driver.ReadAndEstablish` | lang/java/src/name/jenkins/paul/john/concordia/Concordia.java:291-312 | a mapping failure becomes "The schema was malformed or invalid.", syntax and I/O failures propagate; success exactly when the document reads to a non-null schema that passes the check with the fallback controller |
| `Driver.NullDocumentNeverConstructs` | lang/java/src/name/jenkins/paul/john/concordia/Concordia.java:465-479 | a document that reads to a null schema never constructs: the controller's rejection if it rejects null, otherwise the root-type exception |
| `Driver.ConstructFromStream` | lang/java/src/name/jenkins/paul/john/concordia/Concordia.java:277-313 | a null stream fails with "The schema is null." before reading; otherwise the result is what `ReadAndEstablish` makes of the stream reader's outcome, so success implies the read schema is well rooted and the controller is the given one or the basic one |
| `Driver.ConstructFromParser` | lang/java/src/name/jenkins/paul/john/concordia/Concordia.java:338-374 | a null parser fails with "The parser is null." before reading; otherwise the result is what `ReadAndEstablish` makes of the parser reader's outcome |
| `Driver.ConstructFromText` | lang/java/src/name/jenkins/paul/john/concordia/Concordia.java:147-157 | a null text fails with a null pointer exception; a non-null text behaves as the stream constructor on its contents |
| `Driver.ConstructionIsWellRooted` | lang/java/src/name/jenkins/paul/john/concordia/Concordia.java:469-487 | any successful construction, by any constructor, has non-null fields, a root that is an object or array schema and not optional, accepted by the controller |
| `Driver.ConstructorsAgree` | lang/java/src/name/jenkins/paul/john/concordia/Concordia.java:171-374 | the one-argument schema constructor equals the two-argument one given the basic controller; a null controller to the stream constructor acts as the basic one; the stream and parser constructors agree whenever their readers yield the same outcome |
| `Driver.Concordia.FromSchema` | lang/java/src/name/jenkins/paul/john/concordia/Concordia.java:171-185 | the new instance, or the failure, is the one `ConstructFromSchemaDefault` describes |
| `Driver.Concordia.FromSchemaWith` | lang/java/src/name/jenkins/paul/john/concordia/Concordia.java:202-222 | the new instance, or the failure, is the one `ConstructFromSchema` describes |
| `Driver.Concordia.FromText` | lang/java/src/name/jenkins/paul/john/concordia/Concordia.java:113-122 | as `ConstructFromText` with a null controller |
| `Driver.Concordia.FromTextWith` | lang/java/src/name/jenkins/paul/john/concordia/Concordia.java:147-157 | as `ConstructFromText` |
| `Driver.Concordia.FromStream` | lang/java/src/name/jenkins/paul/john/concordia/Concordia.java:243-252 | as `ConstructFromStream` with a null controller |
| `Driver.Concordia.FromStreamWith` | lang/java/src/name/jenkins/paul/john/concordia/Concordia.java:277-313 | as `ConstructFromStream` |
| `Driver.Concordia.FromParser` | lang/java/src/name/jenkins/paul/john/concordia/Concordia.java:338-374 | as `ConstructFromParser` |
| `Driver.Concordia.ReadAndSetup` | lang/java/src/name/jenkins/paul/john/concordia/Concordia.java:291-312 | as `ReadAndEstablish`, on a freshly allocated instance (none is allocated for a null schema, which the check always rejects) |
| `Driver.Concordia.Init` | lang/java/src/name/jenkins/paul/john/concordia/Concordia.java:179-182 | the field assignments every checking constructor makes before the check |
| `Driver.Concordia.Copy` | lang/java/src/name/jenkins/paul/john/concordia/Concordia.java:381-384 | the copy has the same schema and controller and is equal to the original in both directions |
| `Driver.Concordia.Setup` | lang/java/src/name/jenkins/paul/john/concordia/Concordia.java:465-491 | returns the verdict of `SetupCheck` and leaves the controller unchanged |
| `Driver.Concordia.UpdateController` | lang/java/src/name/jenkins/paul/john/concordia/Concordia.java:504-516 | terminates on every schema tree (its measure is the tree size), ends with the controller equal to the argument, and makes one call per tree node plus one |
| `Driver.Concordia.ValidateData` | lang/java/src/name/jenkins/paul/john/concordia/Concordia.java:403-405 | passes exactly when the controller accepts the data, possibly a null node, for the stored schema; a failure is the controller's; no field changes |
| `Driver.Concordia.HashCode` | lang/java/src/name/jenkins/paul/john/concordia/Concordia.java:411-420 | the step-by-step wrapped computation equals `HashOf`, the closed form modulo 2^32 |
| `Driver.HashOf` | lang/java/src/name/jenkins/paul/john/concordia/Concordia.java:411-420 | congruent modulo 2^32 to `961 + 31 * h(controller) + h(schema)` |
| `Driver.NullableHash` | lang/java/src/name/jenkins/paul/john/concordia/Concordia.java:417-418 | 0 for a null field, the field's own hash otherwise |
| `Driver.Concordia.Equals` | lang/java/src/name/jenkins/paul/john/concordia/Concordia.java:426-454 | true exactly for a Concordia instance whose schema and controller equal this one's |
| `Driver.FieldsEqual` | lang/java/src/name/jenkins/paul/john/concordia/Concordia.java:437-453 | the null-aware field-by-field comparison holds exactly when both pairs of fields are equal, null counting equal only to null |
| `Driver.EqualsNonNull` | lang/java/src/name/jenkins/paul/john/concordia/Concordia.java:442-450 | a non-null value equals another exactly when the other is non-null and the same value |
| `Driver.EqualFieldsHashAlike` | lang/java/src/name/jenkins/paul/john/concordia/Concordia.java:411-454 | fields that compare equal hash alike |
| `Driver.EqualsReflexive` | lang/java/src/name/jenkins/paul/john/concordia/Concordia.java:427-432 | an instance equals itself and never equals null |
| `Driver.EqualsIsEquivalence` | lang/java/src/name/jenkins/paul/john/concordia/Concordia.java:426-454 | equality between instances is symmetric and transitive |
| `Driver.EqualInstancesHashAlike` | lang/java/src/name/jenkins/paul/john/concordia/Concordia.java:411-454 | equal instances have equal hash codes |
| `JavaInt.Wrap` | lang/java/src/name/jenkins/paul/john/concordia/Concordia.java:414-418 | the wrapped `int` is congruent to the exact value modulo 2^32 and equals it when it is in range |
| `JavaInt.WrapMulAdd` | lang/java/src/name/jenkins/paul/john/concordia/Concordia.java:414-418 | wrapping after every multiplication and addition gives the same `int` as wrapping once at the end |
| `Schemas.Schema.Type` | lang/java/src/name/jenkins/paul/john/concordia/schema/NumberSchema.java:119-121 | a number schema's type tag is "number"; object and array schemas have their own tags |
| `Schemas.Schema.SubSchemas` | lang/java/src/name/jenkins/paul/john/concordia/schema/NumberSchema.java:128-130 | a number schema has no sub-schemas, so it is a leaf of the tree walked by `UpdateController`; every child is smaller than its parent |
| `NumberSchemas.NumberSchema.Type` | lang/java/src/name/jenkins/paul/john/concordia/schema/NumberSchema.java:60-121 | always "number", the `TYPE_ID` constant |
| `NumberSchemas.NumberSchema.GetBuilder` | lang/java/src/name/jenkins/paul/john/concordia/schema/NumberSchema.java:137-139 | building the returned builder gives back the same schema |
| `NumberSchemas.NewNumberSchema` | lang/java/src/name/jenkins/paul/john/concordia/schema/NumberSchema.java:80-86 | keeps doc, optional and name as given and has no preserved properties |
| `NumberSchemas.NumberSchemaWithOthers` | lang/java/src/name/jenkins/paul/john/concordia/schema/NumberSchema.java:104-111 | keeps all four fields as given and has the number type tag |
| `NumberSchemas.Builder.Build` | lang/java/src/name/jenkins/paul/john/concordia/schema/NumberSchema.java:46-54 | the built schema has exactly the builder's doc, optional flag, name and preserved properties, and a builder taken from it is this builder |
| `NumberSchemas.BuilderFrom` | lang/java/src/name/jenkins/paul/john/concordia/schema/NumberSchema.java:38-40 | a builder based off a schema starts with that schema's four fields |
| `NumberSchemas.BuildRoundTrip` | lang/java/src/name/jenkins/paul/john/concordia/schema/NumberSchema.java:38-54 | building and taking a builder are inverse in both directions |

## Left out

- Jackson: the reader's configuration, the strict boolean and string deserialisers, the annotations, and the charset used by `getBytes()`. Reading is `External.readStream` and `External.readParser`, which say only whether a schema (possibly null) results or which failure is raised; how a parser's position and features affect that is left to those functions.
- Driver.Concordia.Init, Driver.Concordia.Setup, Driver.Concordia.UpdateController: these stand for private steps of the `From...` factories (field assignment, `setup` and `updateController` are private in Java), but Dafny has no private members, so a caller of the model can build an instance that skips the check or rewrite the controller of a built one. The immutability of a constructed instance is captured only for the public operations: `ValidateData`, `HashCode` and `Equals` carry no modifies clause.
- The controller's `validate(schema)` and `validate(schema, data)` are `External.acceptsSchema` and `External.acceptsData`; the object, array and reference rules they apply, extension hooks and reference fetching are not part of this model, nor is any state they change.
- `ObjectSchema`, `ArraySchema`, `ReferenceSchema` and the other variants keep only their optional flag, sub-schemas and (for the others) type tag; the general schema builder's setters are not part of this model.
- `equals` and `hashCode` of controllers and schemas are not part of this model: controllers and schemas compare by value, and their hashes are `External.controllerHash` and `External.schemaHash`.
- The copy constructor applied to null throws a null pointer exception in Java; Dafny's non-null reference type excludes that call.
- `getSchema` is the public, immutable `schema` field; `Serializable`, `serialVersionUID` and the injectable-controller key constant have no behaviour to model.

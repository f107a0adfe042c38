/** The Concordia driver: building a validated instance from a schema, a
    stream or a parser, and the instance's data validation, equality and
    hash code. */
module Driver {
  import opened Wrappers
  import opened Json
  import opened JavaInt
  import opened Schemas
  import opened Controllers

  const SCHEMA_NULL: string := "The schema is null."
  const CONTROLLER_NULL: string := "The controller is null."
  const PARSER_NULL: string := "The parser is null."
  const MALFORMED: string := "The schema was malformed or invalid."
  const ROOT_TYPE: string :=
    "The root type of this schema must either be '" + OBJECT_TYPE_ID + "' or '" + ARRAY_TYPE_ID + "'."
  const ROOT_OPTIONAL: string := "The root of the schema cannot be optional."

  /** The exceptions a construction or a validation can end with. */
  datatype Error =
    | IllegalArgument(message: string)  // IllegalArgumentException
    | NullPointer                       // NullPointerException
    | JsonSyntax                        // JsonParseException from the reader
    | Io                                // IOException from the reader
    | Invalid(message: string)          // ConcordiaException raised by the driver
    | Rejected                          // ConcordiaException raised by the controller

  /** The two fields of an instance, each possibly null, as `equals` and
      `hashCode` see them. */
  datatype Fields = Fields(schema: Option<Schema>, controller: Option<Controller>)

  /** The root constraints: an object or array schema that is not optional. */
  predicate WellRooted(s: Schema) {
    (s.Object? || s.Array?) && !s.IsOptional()
  }

  /** The verdict of the post-construction check, made in a fixed order: the
      controller's own validation, then the root's type (a null schema is
      neither an object nor an array schema), then its optional flag. */
  function SetupCheck(ext: External, schema: Option<Schema>, controller: Controller): (r: Outcome<Error>)
    ensures r == Pass <==> schema.Some? && ext.acceptsSchema(controller, schema) && WellRooted(schema.value)
    ensures r.Fail? ==> r.error == Rejected || r.error == Invalid(ROOT_TYPE) || r.error == Invalid(ROOT_OPTIONAL)
  {
    if !ext.acceptsSchema(controller, schema) then Fail(Rejected)
    else if schema.None? || (!schema.value.Object? && !schema.value.Array?) then Fail(Invalid(ROOT_TYPE))
    else if schema.value.IsOptional() then Fail(Invalid(ROOT_OPTIONAL))
    else Pass
  }

  /** A schema failing an earlier check reports that failure, whatever the
      later checks would say. */
  lemma SetupReportsFirstFailure(ext: External, schema: Option<Schema>, controller: Controller)
    ensures !ext.acceptsSchema(controller, schema) ==> SetupCheck(ext, schema, controller) == Fail(Rejected)
    ensures ext.acceptsSchema(controller, schema) && (schema.None? || !(schema.value.Object? || schema.value.Array?)) ==>
      SetupCheck(ext, schema, controller) == Fail(Invalid(ROOT_TYPE))
    ensures (ext.acceptsSchema(controller, schema) && schema.Some? &&
             (schema.value.Object? || schema.value.Array?) && schema.value.IsOptional()) ==>
      SetupCheck(ext, schema, controller) == Fail(Invalid(ROOT_OPTIONAL))
  {
  }

  /** The instance that the fields assigned by a constructor become once the
      post-construction check has run. */
  function Established(ext: External, schema: Option<Schema>, controller: Controller): (r: Result<Fields, Error>)
    ensures r.Success? <==> schema.Some? && ext.acceptsSchema(controller, schema) && WellRooted(schema.value)
    ensures r.Success? ==> r.value == Fields(schema, Some(controller))
    ensures r.Failure? ==> SetupCheck(ext, schema, controller) == Fail(r.error)
  {
    match SetupCheck(ext, schema, controller)
    case Pass => Success(Fields(schema, Some(controller)))
    case Fail(e) => Failure(e)
  }

  /** The controller used when the caller passes one or null. */
  function WithFallback(controller: Option<Controller>): (c: Controller)
    ensures controller.Some? ==> c == controller.value
    ensures controller.None? ==> c == BASIC_CONTROLLER
  {
    if controller.None? then BASIC_CONTROLLER else controller.value
  }

  /** The `(Schema, ValidationController)` constructor: both arguments must
      be non-null, the schema being checked first. */
  function ConstructFromSchema(schema: Option<Schema>, controller: Option<Controller>, ext: External): (r: Result<Fields, Error>)
    ensures schema.None? ==> r == Failure(IllegalArgument(SCHEMA_NULL))
    ensures schema.Some? && controller.None? ==> r == Failure(IllegalArgument(CONTROLLER_NULL))
    ensures r.Success? <==>
      schema.Some? && controller.Some? &&
      ext.acceptsSchema(controller.value, schema) && WellRooted(schema.value)
    ensures r.Success? ==> r.value == Fields(schema, controller)
  {
    if schema.None? then Failure(IllegalArgument(SCHEMA_NULL))
    else if controller.None? then Failure(IllegalArgument(CONTROLLER_NULL))
    else Established(ext, schema, controller.value)
  }

  /** The `(Schema)` constructor: a non-null schema with the basic controller. */
  function ConstructFromSchemaDefault(schema: Option<Schema>, ext: External): (r: Result<Fields, Error>)
    ensures schema.None? ==> r == Failure(IllegalArgument(SCHEMA_NULL))
    ensures r.Success? <==>
      schema.Some? && ext.acceptsSchema(BASIC_CONTROLLER, schema) && WellRooted(schema.value)
    ensures r.Success? ==> r.value == Fields(schema, Some(BASIC_CONTROLLER))
  {
    if schema.None? then Failure(IllegalArgument(SCHEMA_NULL))
    else Established(ext, schema, BASIC_CONTROLLER)
  }

  /** Establishing what the reader made of a document, as the stream and
      parser constructors do once their argument is non-null: a mapping
      failure becomes a Concordia exception, other read failures propagate,
      and a null controller falls back to the basic one. */
  function ReadAndEstablish(read: ReadResult, controller: Option<Controller>, ext: External): (r: Result<Fields, Error>)
    ensures read == MappingFailure ==> r == Failure(Invalid(MALFORMED))
    ensures read == SyntaxFailure ==> r == Failure(JsonSyntax)
    ensures read == IoFailure ==> r == Failure(Io)
    ensures r.Success? <==>
      read.Read? && read.schema.Some? &&
      ext.acceptsSchema(WithFallback(controller), read.schema) && WellRooted(read.schema.value)
    ensures r.Success? ==> r.value == Fields(read.schema, Some(WithFallback(controller)))
  {
    match read
    case SyntaxFailure => Failure(JsonSyntax)
    case IoFailure => Failure(Io)
    case MappingFailure => Failure(Invalid(MALFORMED))
    case Read(s) => Established(ext, s, WithFallback(controller))
  }

  /** A document that reads to null never yields an instance: either the
      controller rejects the null schema, or the root-type check does. */
  lemma NullDocumentNeverConstructs(controller: Option<Controller>, ext: External)
    ensures ReadAndEstablish(Read(None), controller, ext) ==
      if ext.acceptsSchema(WithFallback(controller), None) then Failure(Invalid(ROOT_TYPE)) else Failure(Rejected)
  {
  }

  /** The `(InputStream, ValidationController)` constructor. */
  function ConstructFromStream(stream: Option<Stream>, controller: Option<Controller>, ext: External): (r: Result<Fields, Error>)
    ensures stream.None? ==> r == Failure(IllegalArgument(SCHEMA_NULL))
    ensures stream.Some? ==> r == ReadAndEstablish(ext.readStream(stream.value), controller, ext)
    ensures r.Success? ==>
      && stream.Some? && ext.readStream(stream.value).Read?
      && r.value == Fields(ext.readStream(stream.value).schema, Some(WithFallback(controller)))
  {
    if stream.None? then Failure(IllegalArgument(SCHEMA_NULL))
    else ReadAndEstablish(ext.readStream(stream.value), controller, ext)
  }

  /** The `(JsonParser, ValidationController)` constructor. */
  function ConstructFromParser(parser: Option<Parser>, controller: Option<Controller>, ext: External): (r: Result<Fields, Error>)
    ensures parser.None? ==> r == Failure(IllegalArgument(PARSER_NULL))
    ensures parser.Some? ==> r == ReadAndEstablish(ext.readParser(parser.value), controller, ext)
    ensures r.Success? ==>
      && parser.Some? && ext.readParser(parser.value).Read?
      && r.value == Fields(ext.readParser(parser.value).schema, Some(WithFallback(controller)))
  {
    if parser.None? then Failure(IllegalArgument(PARSER_NULL))
    else ReadAndEstablish(ext.readParser(parser.value), controller, ext)
  }

  /** The `(String, ValidationController)` constructor: the text is turned
      into a stream by dereferencing it, so a null text fails with a null
      pointer exception rather than an illegal argument. */
  function ConstructFromText(text: Option<string>, controller: Option<Controller>, ext: External): (r: Result<Fields, Error>)
    ensures text.None? ==> r == Failure(NullPointer)
    ensures text.Some? ==> r == ConstructFromStream(Some(Stream(text.value)), controller, ext)
  {
    if text.None? then Failure(NullPointer)
    else ConstructFromStream(Some(Stream(text.value)), controller, ext)
  }

  /** Every successful construction, by any constructor, yields non-null
      fields and a well-rooted schema the controller accepted. */
  lemma ConstructionIsWellRooted(
    r: Result<Fields, Error>,
    schema: Option<Schema>, text: Option<string>, stream: Option<Stream>, parser: Option<Parser>,
    controller: Option<Controller>, ext: External)
    requires r == ConstructFromSchema(schema, controller, ext)
          || r == ConstructFromSchemaDefault(schema, ext)
          || r == ConstructFromText(text, controller, ext)
          || r == ConstructFromStream(stream, controller, ext)
          || r == ConstructFromParser(parser, controller, ext)
    requires r.Success?
    ensures r.value.schema.Some? && r.value.controller.Some?
    ensures WellRooted(r.value.schema.value)
    ensures ext.acceptsSchema(r.value.controller.value, r.value.schema)
  {
  }

  /** The `(Schema)` constructor behaves as the two-argument one given the
      basic controller; a null controller to the stream constructor acts as
      the basic one; and the stream and parser constructors give the same
      result whenever their two readers make the same of their input. */
  lemma ConstructorsAgree(schema: Option<Schema>, stream: Stream, parser: Parser, ext: External)
    ensures ConstructFromSchemaDefault(schema, ext) == ConstructFromSchema(schema, Some(BASIC_CONTROLLER), ext)
    ensures ConstructFromStream(Some(stream), None, ext) == ConstructFromStream(Some(stream), Some(BASIC_CONTROLLER), ext)
    ensures ext.readStream(stream) == ext.readParser(parser) ==>
      forall c :: ConstructFromStream(Some(stream), c, ext) == ConstructFromParser(Some(parser), c, ext)
  {
  }

  /** Null-aware equality of the fields, compared in the order `equals`
      compares them: controller first, then schema. */
  function FieldsEqual(a: Fields, b: Fields): (r: bool)
    ensures r <==> a == b
  {
    && (if a.controller.None? then b.controller.None? else EqualsNonNull(a.controller.value, b.controller))
    && (if a.schema.None? then b.schema.None? else EqualsNonNull(a.schema.value, b.schema))
  }

  /** `x.equals(other)` for a non-null `x`: false on null, value equality
      otherwise. */
  function EqualsNonNull<T(==)>(x: T, other: Option<T>): (r: bool)
    ensures r <==> other == Some(x)
  {
    match other
    case None => false
    case Some(y) => x == y
  }

  /** The hash of a possibly null field: 0 for null. */
  function NullableHash<T>(x: Option<T>, hash: T -> int32): (h: int32)
    ensures x.None? ==> h == 0
    ensures x.Some? ==> h == hash(x.value)
  {
    if x.None? then 0 else hash(x.value)
  }

  /** `31 * (31 * 1 + h(controller)) + h(schema)` in Java `int` arithmetic. */
  function HashOf(f: Fields, ext: External): (h: int32)
    ensures (h as int - (961 + 31 * NullableHash(f.controller, ext.controllerHash) as int
                         + NullableHash(f.schema, ext.schemaHash) as int)) % TWO_TO_THE_32 == 0
  {
    Wrap(31 * (31 * 1 + NullableHash(f.controller, ext.controllerHash) as int)
         + NullableHash(f.schema, ext.schemaHash) as int)
  }

  /** Equal fields hash alike. */
  lemma EqualFieldsHashAlike(a: Fields, b: Fields, ext: External)
    requires FieldsEqual(a, b)
    ensures HashOf(a, ext) == HashOf(b, ext)
  {
  }

  /** What `Yields(r, spec)` says: the object a factory returned holds the
      fields the specification describes, or both fail alike. */
  ghost predicate Yields(r: Result<Concordia, Error>, spec: Result<Fields, Error>)
    reads if r.Success? then {r.value} else {}
  {
    match r
    case Success(c) => spec == Success(c.State())
    case Failure(e) => spec == Failure(e)
  }

  /** A Concordia instance: an immutable schema and the controller that
      validates data against it. Construction can fail; the constructors of
      the Java class are the static `From...` methods, which allocate the
      instance, run the post-construction check and return it only if the
      check passes. */
  class Concordia {
    const schema: Schema
    var controller: Controller

    /** Field assignment, the part every constructor shares before its
        post-construction check. */
    constructor Init(schema: Schema, controller: Controller)
      ensures this.schema == schema && this.controller == controller
    {
      this.schema := schema;
      this.controller := controller;
    }

    /** The copy constructor: no check, the same schema and controller. */
    constructor Copy(concordia: Concordia)
      ensures schema == concordia.schema && controller == concordia.controller
      ensures Equals(concordia) && concordia.Equals(this)
    {
      schema := concordia.schema;
      controller := concordia.controller;
    }

    /** The instance's fields, as `equals` and `hashCode` read them. */
    function State(): (f: Fields)
      reads this
      ensures f.schema == Some(schema) && f.controller == Some(controller)
    {
      Fields(Some(schema), Some(controller))
    }

    static method FromSchema(schema: Option<Schema>, ext: External) returns (r: Result<Concordia, Error>)
      ensures r.Success? ==> fresh(r.value)
      ensures Yields(r, ConstructFromSchemaDefault(schema, ext))
    {
      if schema.None? {
        return Failure(IllegalArgument(SCHEMA_NULL));
      }
      var c := new Concordia.Init(schema.value, BASIC_CONTROLLER);
      var outcome := c.Setup(ext);
      if outcome.Fail? {
        return Failure(outcome.error);
      }
      return Success(c);
    }

    static method FromSchemaWith(schema: Option<Schema>, controller: Option<Controller>, ext: External)
      returns (r: Result<Concordia, Error>)
      ensures r.Success? ==> fresh(r.value)
      ensures Yields(r, ConstructFromSchema(schema, controller, ext))
    {
      if schema.None? {
        return Failure(IllegalArgument(SCHEMA_NULL));
      }
      if controller.None? {
        return Failure(IllegalArgument(CONTROLLER_NULL));
      }
      var c := new Concordia.Init(schema.value, controller.value);
      var outcome := c.Setup(ext);
      if outcome.Fail? {
        return Failure(outcome.error);
      }
      return Success(c);
    }

    static method FromText(text: Option<string>, ext: External) returns (r: Result<Concordia, Error>)
      ensures r.Success? ==> fresh(r.value)
      ensures Yields(r, ConstructFromText(text, None, ext))
    {
      r := FromTextWith(text, None, ext);
    }

    static method FromTextWith(text: Option<string>, controller: Option<Controller>, ext: External)
      returns (r: Result<Concordia, Error>)
      ensures r.Success? ==> fresh(r.value)
      ensures Yields(r, ConstructFromText(text, controller, ext))
    {
      if text.None? {
        return Failure(NullPointer);
      }
      r := FromStreamWith(Some(Stream(text.value)), controller, ext);
    }

    static method FromStream(stream: Option<Stream>, ext: External) returns (r: Result<Concordia, Error>)
      ensures r.Success? ==> fresh(r.value)
      ensures Yields(r, ConstructFromStream(stream, None, ext))
    {
      r := FromStreamWith(stream, None, ext);
    }

    static method FromStreamWith(stream: Option<Stream>, controller: Option<Controller>, ext: External)
      returns (r: Result<Concordia, Error>)
      ensures r.Success? ==> fresh(r.value)
      ensures Yields(r, ConstructFromStream(stream, controller, ext))
    {
      if stream.None? {
        return Failure(IllegalArgument(SCHEMA_NULL));
      }
      r := ReadAndSetup(ext.readStream(stream.value), controller, ext);
    }

    static method FromParser(parser: Option<Parser>, controller: Option<Controller>, ext: External)
      returns (r: Result<Concordia, Error>)
      ensures r.Success? ==> fresh(r.value)
      ensures Yields(r, ConstructFromParser(parser, controller, ext))
    {
      if parser.None? {
        return Failure(IllegalArgument(PARSER_NULL));
      }
      r := ReadAndSetup(ext.readParser(parser.value), controller, ext);
    }

    /** The steps the stream and parser constructors share once their
        argument is known to be non-null and the reader has run. */
    static method ReadAndSetup(read: ReadResult, controller: Option<Controller>, ext: External)
      returns (r: Result<Concordia, Error>)
      ensures r.Success? ==> fresh(r.value)
      ensures Yields(r, ReadAndEstablish(read, controller, ext))
    {
      var schema: Option<Schema>;
      match read {
        case SyntaxFailure => return Failure(JsonSyntax);
        case IoFailure => return Failure(Io);
        case MappingFailure => return Failure(Invalid(MALFORMED));
        case Read(s) => schema := s;
      }
      var chosen: Controller;
      if controller.None? {
        chosen := BASIC_CONTROLLER;
      } else {
        chosen := controller.value;
      }
      if schema.None? {
        // The post-construction check on a null schema: the controller's
        // validation, then the root-type check, which null always fails.
        if !ext.acceptsSchema(chosen, None) {
          return Failure(Rejected);
        }
        return Failure(Invalid(ROOT_TYPE));
      }
      var c := new Concordia.Init(schema.value, chosen);
      var outcome := c.Setup(ext);
      if outcome.Fail? {
        return Failure(outcome.error);
      }
      return Success(c);
    }

    /** The post-construction check. It leaves the controller as it was:
        the walk over the schema tree only rewrites it with its own value. */
    method Setup(ext: External) returns (r: Outcome<Error>)
      modifies this`controller
      ensures controller == old(controller)
      ensures r == SetupCheck(ext, Some(schema), controller)
    {
      if !ext.acceptsSchema(controller, Some(schema)) {
        return Fail(Rejected);
      }
      if !schema.Object? && !schema.Array? {
        return Fail(Invalid(ROOT_TYPE));
      }
      if schema.IsOptional() {
        return Fail(Invalid(ROOT_OPTIONAL));
      }
      var _ := UpdateController(schema.SubSchemas(), controller);
      return Pass;
    }

    /** Sets the controller, then recurses into the children of each schema
        in turn. Every call writes the same controller, so the field ends as
        the argument; `calls`, the number of invocations the walk makes,
        shows that it reaches each node of a finite tree exactly once. */
    method UpdateController(schemas: seq<Schema>, controller: Controller) returns (ghost calls: nat)
      modifies this`controller
      ensures this.controller == controller
      ensures calls == SizeOfAll(schemas) + 1
      decreases SizeOfAll(schemas)
    {
      this.controller := controller;
      calls := 1;
      for i := 0 to |schemas|
        invariant this.controller == controller
        invariant calls == SizeOfAll(schemas[..i]) + 1
      {
        SizeOfMember(schemas, i);
        SizeOfSubSchemas(schemas[i]);
        var inner := UpdateController(schemas[i].SubSchemas(), controller);
        SizeOfAllAppend(schemas[..i], schemas[i]);
        assert schemas[..i + 1] == schemas[..i] + [schemas[i]];
        calls := calls + inner;
      }
      assert schemas[..|schemas|] == schemas;
    }

    /** Delegates to the controller with the stored schema; the instance is
        left as it was. The data node may be null (`None`), which is distinct
        from the JSON literal null (`Some(JNull)`). */
    method ValidateData(data: Option<Json>, ext: External) returns (r: Outcome<Error>)
      ensures r == Pass <==> ext.acceptsData(controller, schema, data)
      ensures r.Fail? ==> r.error == Rejected
    {
      if ext.acceptsData(controller, schema, data) {
        r := Pass;
      } else {
        r := Fail(Rejected);
      }
    }

    /** `hashCode`, each step wrapping as Java `int` arithmetic does. */
    method HashCode(ext: External) returns (r: int32)
      ensures r == HashOf(State(), ext)
    {
      var prime: int32 := 31;
      var result: int32 := 1;
      var hc := ext.controllerHash(controller);
      result := Wrap(Wrap(prime as int * result as int) as int + hc as int);
      WrapMulAdd(1, 31, hc as int);
      var hs := ext.schemaHash(schema);
      var before := result;
      result := Wrap(Wrap(prime as int * result as int) as int + hs as int);
      WrapMulAdd(1, 31 * before as int, hs as int);
      WrapMulAdd(31, 31 + hc as int, hs as int);
      r := result;
    }

    /** `equals`: the same object, or another Concordia instance whose
        controller and schema are equal to this one's. */
    predicate Equals(obj: object?)
      reads this, obj
      ensures Equals(obj) <==>
        obj is Concordia && (obj as Concordia).schema == schema && (obj as Concordia).controller == controller
    {
      if this == obj then true
      else if obj == null then false
      else if !(obj is Concordia) then false
      else FieldsEqual(State(), (obj as Concordia).State())
    }
  }

  /** `equals` is reflexive and false for null. */
  lemma EqualsReflexive(c: Concordia)
    ensures c.Equals(c)
    ensures !c.Equals(null)
  {
  }

  /** `equals` is symmetric and transitive between instances. */
  lemma EqualsIsEquivalence(a: Concordia, b: Concordia, c: Concordia)
    ensures a.Equals(b) <==> b.Equals(a)
    ensures a.Equals(b) && b.Equals(c) ==> a.Equals(c)
  {
  }

  /** Equal instances have equal hash codes. */
  lemma EqualInstancesHashAlike(a: Concordia, b: Concordia, ext: External)
    requires a.Equals(b)
    ensures HashOf(a.State(), ext) == HashOf(b.State(), ext)
  {
  }
}

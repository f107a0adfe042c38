/** Validation controllers and the behaviour of code outside the driver:
    the controller's own checks, the JSON reader, and the `hashCode` of
    controllers and schemas. */
module Controllers {
  import opened Wrappers
  import opened Json
  import opened JavaInt
  import opened Schemas

  /** A validation controller, identified by value. `Basic` is the default
      controller that the driver falls back to. */
  datatype Controller = Basic | Custom(id: nat)

  const BASIC_CONTROLLER: Controller := Basic

  /** Where a schema document is read from: an input stream, given by the
      text it holds, or a caller's JSON parser positioned at the definition,
      given by the text it reads from, its position and its enabled
      features. */
  datatype Stream = Stream(text: string)
  datatype Parser = Parser(text: string, position: nat, features: set<string>)

  /** The outcome of reading a schema document: a schema, or null when the
      document is the JSON literal `null`. A mapping failure is the only
      failure the driver catches; syntax and I/O failures propagate. */
  datatype ReadResult =
    | Read(schema: Option<Schema>)
    | SyntaxFailure
    | MappingFailure
    | IoFailure

  /** The foreign behaviour the driver depends on, as total functions:
      - `acceptsSchema(c, s)`: `c.validate(s)` returns without throwing, for
        a schema that may be null;
      - `acceptsData(c, s, d)`: `c.validate(s, d)` returns without throwing,
        for a data node that may be null;
      - `readStream(s)`: what the JSON reader makes of the document in a
        stream, read through a parser the reader creates itself;
      - `readParser(p)`: what the JSON reader makes of the next value of a
        caller's parser, with that parser's own position and features;
      - `controllerHash`, `schemaHash`: the `hashCode` of a controller or schema. */
  datatype External = External(
    acceptsSchema: (Controller, Option<Schema>) -> bool,
    acceptsData: (Controller, Schema, Option<Json>) -> bool,
    readStream: Stream -> ReadResult,
    readParser: Parser -> ReadResult,
    controllerHash: Controller -> int32,
    schemaHash: Schema -> int32)
}

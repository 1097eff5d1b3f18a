/** The client descriptor (`_Client` without its instance): the artifacts
    compiled from a route's two line-schemas, and how they are compiled
    (the body of `RegisterClient` before the store, and `newJsonschemaLoader`). */
module Descriptor {
  import opened Base
  import opened Collaborators

  /** Compiled artifacts of one route. A `None` loader is Go's nil loader;
      an empty format path or default document means "none". */
  datatype Descriptor = Descriptor(
    inputLoader: Option<Loader>,
    outputLoader: Option<Loader>,
    inputFormatPath: string,
    outputFormatPath: string,
    defaultJson: string)

  /** What a route without any schema compiles to. */
  const NoSchemas := Descriptor(None, None, "", "", "")

  /** A descriptor bound to the caller's instance (`*_Client`). */
  datatype Client = Client(instance: Instance, desc: Descriptor)

  const EmptySchemaMessage := "NewJsonschemaLoader: arg lineSchemaStr required,got empty"
  const DefaultJsonMessage := "get input default json error"

  /** The artifacts of one direction: validator, format path and, for the
      input direction only, the default document. */
  datatype Half = Half(loader: Option<Loader>, formatPath: string, defaultJson: string)

  /** A schema text compiles when it is absent, or when it parses, yields a
      JSON-Schema and, for the input side, yields a default document. */
  predicate Compiles(lib: LineSchemaLib, text: string, dir: Direction) {
    || text == ""
    || (&& lib.parse(text).Ok?
        && lib.jsonSchema(lib.parse(text).value).Ok?
        && (dir == Outbound ==> lib.defaultJson(lib.parse(text).value).Ok?))
  }

  /** `newJsonschemaLoader`: refuses an empty text, otherwise parses the
      line-schema and wraps its JSON-Schema in a string loader. */
  function NewJsonschemaLoader(lib: LineSchemaLib, text: string): (r: Result<Loader>)
    ensures text == "" ==> r == Err(Failure(EmptySchemaMessage))
    ensures r.Ok? <==> text != "" && lib.parse(text).Ok? && lib.jsonSchema(lib.parse(text).value).Ok?
    ensures r.Ok? ==> r.value == StringLoader(lib.jsonSchema(lib.parse(text).value).value)
    ensures text != "" && lib.parse(text).Err? ==> r == Err(lib.parse(text).error)
    ensures text != "" && lib.parse(text).Ok? && lib.jsonSchema(lib.parse(text).value).Err? ==>
      r == Err(lib.jsonSchema(lib.parse(text).value).error)
  {
    if text == "" then Err(Failure(EmptySchemaMessage))
    else
      var ls :- lib.parse(text);
      var js :- lib.jsonSchema(ls);
      Ok(StringLoader(js))
  }

  /** Compiles one direction's schema text; an empty text compiles to
      nothing without calling the library. */
  function CompileHalf(lib: LineSchemaLib, text: string, dir: Direction): (r: Result<Half>)
    ensures r.Ok? <==> Compiles(lib, text, dir)
    ensures text == "" ==> r == Ok(Half(None, "", ""))
    ensures r.Ok? && text != "" ==>
      var ls := lib.parse(text).value;
      && r.value.loader == Some(StringLoader(lib.jsonSchema(ls).value))
      && r.value.formatPath == lib.gjsonPath(ls, dir)
      && r.value.defaultJson == (if dir == Outbound then lib.defaultJson(ls).value else "")
    ensures text != "" && lib.parse(text).Err? ==> r == Err(lib.parse(text).error)
    ensures text != "" && lib.parse(text).Ok? && lib.jsonSchema(lib.parse(text).value).Err? ==>
      r == Err(lib.jsonSchema(lib.parse(text).value).error)
    ensures (&& dir == Outbound && text != "" && lib.parse(text).Ok?
             && lib.jsonSchema(lib.parse(text).value).Ok?
             && lib.defaultJson(lib.parse(text).value).Err?)
            ==> r == Err(WithMessage(lib.defaultJson(lib.parse(text).value).error, DefaultJsonMessage))
  {
    if text == "" then Ok(Half(None, "", ""))
    else
      var loader :- NewJsonschemaLoader(lib, text);
      // client.go parses the text a second time; parsing is deterministic,
      // so this cannot fail once the loader was built
      match lib.parse(text)
      case Err(e) => Err(e)
      case Ok(ls) =>
        var path := lib.gjsonPath(ls, dir);
        if dir == Inbound then Ok(Half(Some(loader), path, ""))
        else
          match lib.defaultJson(ls)
          case Err(e) => Err(WithMessage(e, DefaultJsonMessage))
          case Ok(d) => Ok(Half(Some(loader), path, d))
  }

  /** The compilation `RegisterClient` performs: input schema first, then
      output schema; the first failure is the result. */
  function Compile(lib: LineSchemaLib, inputSchema: string, outputSchema: string): (r: Result<Descriptor>)
    ensures r.Ok? <==> Compiles(lib, inputSchema, Outbound) && Compiles(lib, outputSchema, Inbound)
    ensures !Compiles(lib, inputSchema, Outbound) ==> r == Err(CompileHalf(lib, inputSchema, Outbound).error)
    ensures Compiles(lib, inputSchema, Outbound) && !Compiles(lib, outputSchema, Inbound) ==>
      r == Err(CompileHalf(lib, outputSchema, Inbound).error)
    ensures r.Ok? ==> (r.value.inputLoader.Some? <==> inputSchema != "")
    ensures r.Ok? ==> (r.value.outputLoader.Some? <==> outputSchema != "")
    ensures r.Ok? && inputSchema == "" ==> r.value.inputFormatPath == "" && r.value.defaultJson == ""
    ensures r.Ok? && outputSchema == "" ==> r.value.outputFormatPath == ""
    ensures inputSchema == "" && outputSchema == "" ==> r == Ok(NoSchemas)
    ensures r.Ok? ==>
      CompileHalf(lib, inputSchema, Outbound) == Ok(Half(r.value.inputLoader, r.value.inputFormatPath, r.value.defaultJson))
    ensures r.Ok? ==>
      CompileHalf(lib, outputSchema, Inbound) == Ok(Half(r.value.outputLoader, r.value.outputFormatPath, ""))
  {
    var i :- CompileHalf(lib, inputSchema, Outbound);
    var o :- CompileHalf(lib, outputSchema, Inbound);
    Ok(Descriptor(i.loader, o.loader, i.formatPath, o.formatPath, i.defaultJson))
  }
}

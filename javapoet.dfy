/** The JavaPoet values the generator builds, as plain records: a method is its name,
    modifiers, return type, annotations and parameters. Rendering them as Java text is
    not part of this model. */
module JavaPoet {

  datatype Modifier = Abstract | Public

  datatype Annotation =
    | HttpMethod(verb: string)        // @GET, @POST, ... chosen from the RAML method name
    | QueryParam(value: string)
    | PathParam(value: string)
    | Path(value: string)
    | Consumes(values: seq<string>)   // one member "value" per media type, in order

  datatype Parameter = Parameter(name: string, javaType: string, annotations: seq<Annotation>)

  datatype MethodSpec = MethodSpec(
    name: string,
    modifiers: seq<Modifier>,
    returnType: string,
    annotations: seq<Annotation>,
    parameters: seq<Parameter>)

  /** TypeSpec.Builder: the interface under construction, to which finished methods are added. */
  class TypeSpecBuilder {
    var methods: seq<MethodSpec>

    constructor ()
      ensures methods == []
    {
      methods := [];
    }

    method AddMethod(m: MethodSpec)
      modifies this
      ensures methods == old(methods) + [m]
    {
      methods := methods + [m];
    }
  }
}

/** The parsed RAML 1.0 resource tree that the generator walks, reduced to what the
    resource handler reads from it. The tree is immutable: the generator only reads it. */
module Raml {

  /** A Java reference that may be null. */
  datatype Option<T> = None | Some(value: T)

  /** What the novelty rule needs to know about a declaration: whether it is an
      object type and, if so, the names of its properties. */
  datatype Shape = Scalar | ObjectShape(properties: seq<string>)

  /** A TypeDeclaration: a query, URI or body parameter, or a named type. For a body,
      `name` is its media type ("application/json"). */
  datatype TypeDecl = TypeDecl(name: string, declaredType: string, shape: Shape)

  /** One declared response: its status code and its (possibly empty) list of bodies. */
  datatype Response = Response(code: string, body: seq<TypeDecl>)

  /** One HTTP method declared on a resource. */
  datatype Method = Method(
    verb: string,
    queryParameters: seq<TypeDecl>,
    body: seq<TypeDecl>,
    responses: seq<Response>)

  /** A resource and its sub-resources; `relativeUri` is relative to the parent. */
  datatype Resource = Resource(
    displayName: string,
    relativeUri: string,
    description: Option<string>,
    uriParameters: seq<TypeDecl>,
    methods: seq<Method>,
    resources: seq<Resource>)

  /** The API root: its default media types and the parent lookup over its named
      types (ModelFixer.parentTypes applied to api.types(), a collaborator). */
  datatype Api = Api(mediaTypes: seq<string>, parentTypes: TypeDecl -> seq<TypeDecl>)

  function Names(decls: seq<TypeDecl>): (r: seq<string>)
    ensures |r| == |decls|
    ensures forall i :: 0 <= i < |decls| ==> r[i] == decls[i].name
  {
    if decls == [] then [] else Names(decls[..|decls| - 1]) + [decls[|decls| - 1].name]
  }
}

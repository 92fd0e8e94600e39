/** The two builders the resource handler drives besides MethodDeclaration: the
    ResourceGenerator of one top-level resource and the ResponseClassBuilder of one HTTP
    method. Their own code is not part of this model; they are modelled as recorders of
    the calls they receive, which is all the handler relies on. */
module Generators {
  import opened Raml
  import opened JavaPoet
  import opened MethodDeclarations

  /** One withResponse call: a status-only entry, or one (code, body name, body type). */
  datatype ResponseEntry = StatusOnly(code: string) | WithBody(code: string, bodyName: string, bodyType: string)

  datatype ResponseClass = ResponseClass(verb: string, suffix: string, name: string, entries: seq<ResponseEntry>)

  /** An internal type requested from TypeHandler.handle for a novel request body. */
  datatype InternalType = InternalType(declaration: TypeDecl, name: string)

  /** Everything a ResourceGenerator has recorded, builders read at their current state. */
  datatype GeneratedResource = GeneratedResource(
    name: string,
    uri: string,
    documentation: Option<string>,
    mediaTypes: Option<seq<string>>,
    internalTypes: seq<InternalType>,
    responseClasses: seq<ResponseClass>,
    methods: seq<BuilderState>)

  class ResponseClassBuilder {
    const verb: string
    const suffix: string
    const name: string
    var entries: seq<ResponseEntry>

    function Value(): ResponseClass
      reads this
    {
      ResponseClass(verb, suffix, name, entries)
    }

    constructor (verb: string, suffix: string, name: string)
      ensures Value() == ResponseClass(verb, suffix, name, [])
    {
      this.verb, this.suffix, this.name := verb, suffix, name;
      entries := [];
    }

    method WithResponse(code: string)
      modifies this
      ensures entries == old(entries) + [StatusOnly(code)]
    {
      entries := entries + [StatusOnly(code)];
    }

    method WithBodyResponse(code: string, bodyName: string, bodyType: string)
      modifies this
      ensures entries == old(entries) + [WithBody(code, bodyName, bodyType)]
    {
      entries := entries + [WithBody(code, bodyName, bodyType)];
    }
  }

  function Values(rs: seq<ResponseClassBuilder>): (r: seq<ResponseClass>)
    reads rs
    ensures |r| == |rs|
    ensures forall i :: 0 <= i < |rs| ==> r[i] == rs[i].Value()
  {
    if rs == [] then [] else Values(rs[..|rs| - 1]) + [rs[|rs| - 1].Value()]
  }

  function States(ms: seq<MethodDeclaration>): (r: seq<BuilderState>)
    reads ms
    ensures |r| == |ms|
    ensures forall i :: 0 <= i < |ms| ==> r[i] == ms[i].State()
  {
    if ms == [] then [] else States(ms[..|ms| - 1]) + [ms[|ms| - 1].State()]
  }

  lemma StatesAppend(ms: seq<MethodDeclaration>, ns: seq<MethodDeclaration>)
    ensures States(ms + ns) == States(ms) + States(ns)
  {
    assert forall i :: 0 <= i < |ms + ns| ==> States(ms + ns)[i] == (States(ms) + States(ns))[i];
  }

  lemma ValuesAppend(rs: seq<ResponseClassBuilder>, ts: seq<ResponseClassBuilder>)
    ensures Values(rs + ts) == Values(rs) + Values(ts)
  {
    assert forall i :: 0 <= i < |rs + ts| ==> Values(rs + ts)[i] == (Values(rs) + Values(ts))[i];
  }

  class ResourceGenerator {
    const build: Build
    const name: string
    const uri: string
    const typeSpec: TypeSpecBuilder
    var documentation: Option<string>
    var mediaTypes: Option<seq<string>>
    var internalTypes: seq<InternalType>
    var responseClasses: seq<ResponseClassBuilder>
    var methods: seq<MethodDeclaration>

    function Model(): GeneratedResource
      reads this, responseClasses, methods
    {
      GeneratedResource(name, uri, documentation, mediaTypes, internalTypes, Values(responseClasses), States(methods))
    }

    /** CurrentBuild.createResource(displayName, relativeUri). */
    constructor (build: Build, name: string, uri: string)
      ensures this.build == build
      ensures Model() == GeneratedResource(name, uri, None, None, [], [], [])
    {
      this.build, this.name, this.uri := build, name, uri;
      typeSpec := new TypeSpecBuilder();
      documentation, mediaTypes := None, None;
      internalTypes, responseClasses, methods := [], [], [];
    }

    method WithDocumentation(doc: string)
      modifies this
      ensures Model() == old(Model()).(documentation := Some(doc))
    {
      documentation := Some(doc);
    }

    method MediaType(types: seq<string>)
      modifies this
      ensures Model() == old(Model()).(mediaTypes := Some(types))
    {
      mediaTypes := Some(types);
    }

    method AddInternalType(t: InternalType)
      modifies this
      ensures Model() == old(Model()).(internalTypes := old(internalTypes) + [t])
      ensures responseClasses == old(responseClasses) && methods == old(methods)
    {
      internalTypes := internalTypes + [t];
    }

    method CreateResponseClassBuilder(verb: string, suffix: string) returns (rb: ResponseClassBuilder)
      modifies this
      ensures fresh(rb) && rb.Value() == ResponseClass(verb, suffix, build.responseClassName(verb, suffix), [])
      ensures responseClasses == old(responseClasses) + [rb]
      ensures methods == old(methods) && internalTypes == old(internalTypes)
      ensures documentation == old(documentation) && mediaTypes == old(mediaTypes)
    {
      rb := new ResponseClassBuilder(verb, suffix, build.responseClassName(verb, suffix));
      responseClasses := responseClasses + [rb];
    }

    method CreateMethod(verb: string, methodName: string, returnClass: string) returns (mb: MethodDeclaration)
      modifies this
      ensures fresh(mb) && mb.build == build && mb.State() == Initial(methodName, returnClass, verb)
      ensures methods == old(methods) + [mb]
      ensures responseClasses == old(responseClasses) && internalTypes == old(internalTypes)
      ensures documentation == old(documentation) && mediaTypes == old(mediaTypes)
    {
      mb := new MethodDeclaration(build, typeSpec, methodName, returnClass, verb);
      methods := methods + [mb];
    }
  }
}

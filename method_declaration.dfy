/** MethodDeclaration: the builder of one abstract JAX-RS resource method. Its state is
    the JavaPoet method under construction and a lazily created @Consumes accumulator. */
module MethodDeclarations {
  import opened Raml
  import opened JavaPoet

  /** The naming and type-resolution collaborators the generator consults and that are
      not part of this model: CurrentBuild.javaTypeName, Names.buildVariableName,
      Names.methodName, Names.methodNameSuffix, and the name the resource generator gives
      to a response class. */
  datatype Build = Build(
    javaTypeName: string -> string,
    variableName: string -> string,
    methodName: (string, string, seq<string>) -> string,
    methodNameSuffix: (string, seq<string>) -> string,
    responseClassName: (string, string) -> string)

  /** The observable state of a MethodDeclaration: the method built so far and the
      media types given to addConsumeAnnotation (None while no call has happened). */
  datatype BuilderState = BuilderState(spec: MethodSpec, consumes: Option<seq<string>>)

  /** The media types accumulated so far; empty while the accumulator does not exist. */
  function Consumed(consumes: Option<seq<string>>): seq<string>
  {
    if consumes.Some? then consumes.value else []
  }

  /** A freshly constructed method: abstract, public, returning `returnClass`, annotated
      with its HTTP method only, no parameters, no @Consumes accumulator. */
  function Initial(name: string, returnClass: string, httpMethodType: string): BuilderState
  {
    BuilderState(MethodSpec(name, [Abstract, Public], returnClass, [HttpMethod(httpMethodType)], []), None)
  }

  function QueryParameter(build: Build, name: string, declaredType: string): Parameter
  {
    Parameter(build.variableName(name), build.javaTypeName(declaredType), [QueryParam(name)])
  }

  function PathParameter(build: Build, name: string, declaredType: string): Parameter
  {
    Parameter(build.variableName(name), build.javaTypeName(declaredType), [PathParam(name)])
  }

  function EntityParameter(build: Build, name: string, declaredType: string): Parameter
  {
    Parameter(name, build.javaTypeName(declaredType), [])
  }

  /** The method `output` hands to the type spec: @Consumes is attached last, and only
      when the accumulator exists. */
  function Finished(s: BuilderState): (m: MethodSpec)
    ensures m.name == s.spec.name && m.parameters == s.spec.parameters
    ensures s.consumes.None? ==> m == s.spec
    ensures s.consumes.Some? ==> m.annotations == s.spec.annotations + [Consumes(s.consumes.value)]
  {
    if s.consumes.Some?
    then s.spec.(annotations := s.spec.annotations + [Consumes(s.consumes.value)])
    else s.spec
  }

  /** A call a client makes on a MethodDeclaration before `output`. */
  datatype Call =
    | QueryCall(name: string, declaredType: string)
    | EntityCall(name: string, declaredType: string)
    | PathParameterCall(name: string, declaredType: string)
    | ConsumeCall(mimeType: string)
    | PathAnnotationCall(path: string)

  /** The state a call leaves behind; each add* method below is proved to do exactly this. */
  function Apply(build: Build, s: BuilderState, c: Call): BuilderState
  {
    match c
    case QueryCall(name, declaredType) =>
      s.(spec := s.spec.(parameters := s.spec.parameters + [QueryParameter(build, name, declaredType)]))
    case EntityCall(name, declaredType) =>
      s.(spec := s.spec.(parameters := s.spec.parameters + [EntityParameter(build, name, declaredType)]))
    case PathParameterCall(name, declaredType) =>
      s.(spec := s.spec.(parameters := s.spec.parameters + [PathParameter(build, name, declaredType)]))
    case ConsumeCall(mimeType) =>
      s.(consumes := Some(Consumed(s.consumes) + [mimeType]))
    case PathAnnotationCall(path) =>
      s.(spec := s.spec.(annotations := s.spec.annotations + [Path(path)]))
  }

  /** The state after a sequence of calls, the last one applied last. */
  function ApplyAll(build: Build, s: BuilderState, cs: seq<Call>): BuilderState
  {
    if cs == [] then s else Apply(build, ApplyAll(build, s, cs[..|cs| - 1]), cs[|cs| - 1])
  }

  class MethodDeclaration {
    const build: Build
    const typeSpec: TypeSpecBuilder
    var builder: MethodSpec
    var consumes: Option<seq<string>>   // consumerAnnotationBuilder; None models null

    function State(): BuilderState
      reads this
    {
      BuilderState(builder, consumes)
    }

    constructor (build: Build, typeSpec: TypeSpecBuilder, name: string, returnClass: string, httpMethodType: string)
      ensures this.build == build && this.typeSpec == typeSpec
      ensures State() == Initial(name, returnClass, httpMethodType)
      ensures builder.modifiers == [Abstract, Public] && builder.returnType == returnClass
      ensures builder.annotations == [HttpMethod(httpMethodType)] && consumes.None?
    {
      this.build := build;
      this.typeSpec := typeSpec;
      builder := MethodSpec(name, [Abstract, Public], returnClass, [HttpMethod(httpMethodType)], []);
      consumes := None;
    }

    method AddQueryParameter(name: string, declaredType: string) returns (r: MethodDeclaration)
      modifies this
      ensures r == this
      ensures State() == Apply(build, old(State()), QueryCall(name, declaredType))
      ensures builder == old(builder).(parameters := old(builder.parameters) + [QueryParameter(build, name, declaredType)])
      ensures consumes == old(consumes)
    {
      builder := builder.(parameters := builder.parameters + [QueryParameter(build, name, declaredType)]);
      r := this;
    }

    method AddEntityParameter(name: string, declaredType: string) returns (r: MethodDeclaration)
      modifies this
      ensures r == this
      ensures State() == Apply(build, old(State()), EntityCall(name, declaredType))
      ensures builder == old(builder).(parameters := old(builder.parameters) + [EntityParameter(build, name, declaredType)])
      ensures consumes == old(consumes)
    {
      builder := builder.(parameters := builder.parameters + [EntityParameter(build, name, declaredType)]);
      r := this;
    }

    method AddPathParameter(name: string, declaredType: string) returns (r: MethodDeclaration)
      modifies this
      ensures r == this
      ensures State() == Apply(build, old(State()), PathParameterCall(name, declaredType))
      ensures builder == old(builder).(parameters := old(builder.parameters) + [PathParameter(build, name, declaredType)])
      ensures consumes == old(consumes)
    {
      builder := builder.(parameters := builder.parameters + [PathParameter(build, name, declaredType)]);
      r := this;
    }

    method AddConsumeAnnotation(mimeType: string) returns (r: MethodDeclaration)
      modifies this
      ensures r == this
      ensures State() == Apply(build, old(State()), ConsumeCall(mimeType))
      ensures builder == old(builder)
      ensures consumes == Some(Consumed(old(consumes)) + [mimeType])
    {
      if consumes.None? {
        consumes := Some([]);
      }
      consumes := Some(consumes.value + [mimeType]);
      r := this;
    }

    method AddPathAnnotation(path: string) returns (r: MethodDeclaration)
      modifies this
      ensures r == this
      ensures State() == Apply(build, old(State()), PathAnnotationCall(path))
      ensures builder == old(builder).(annotations := old(builder.annotations) + [Path(path)])
      ensures consumes == old(consumes)
    {
      builder := builder.(annotations := builder.annotations + [Path(path)]);
      r := this;
    }

    method Output()
      modifies this, typeSpec
      ensures builder == Finished(old(State())) && consumes == old(consumes)
      ensures typeSpec.methods == old(typeSpec.methods) + [builder]
    {
      if consumes.Some? {
        builder := builder.(annotations := builder.annotations + [Consumes(consumes.value)]);
      }
      typeSpec.AddMethod(builder);
    }
  }
}

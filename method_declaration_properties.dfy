/** What a sequence of calls on one MethodDeclaration leaves behind: the header is kept,
    parameters and @Path annotations accumulate in call order, and @Consumes is attached by
    `output` exactly when some addConsumeAnnotation call happened. */
module MethodDeclarationProperties {
  import opened Raml
  import opened JavaPoet
  import opened MethodDeclarations

  /** The media types given to addConsumeAnnotation, in call order. */
  function Mimes(cs: seq<Call>): seq<string>
  {
    if cs == [] then [] else (if cs[0].ConsumeCall? then [cs[0].mimeType] else []) + Mimes(cs[1..])
  }

  /** The parameters the add*Parameter calls contribute, in call order. */
  function AddedParameters(build: Build, cs: seq<Call>): seq<Parameter>
  {
    if cs == [] then []
    else
      var p := match cs[0]
        case QueryCall(name, declaredType) => [QueryParameter(build, name, declaredType)]
        case EntityCall(name, declaredType) => [EntityParameter(build, name, declaredType)]
        case PathParameterCall(name, declaredType) => [PathParameter(build, name, declaredType)]
        case _ => [];
      p + AddedParameters(build, cs[1..])
  }

  /** The @Path annotations the addPathAnnotation calls contribute, in call order. */
  function AddedPaths(cs: seq<Call>): seq<Annotation>
  {
    if cs == [] then [] else (if cs[0].PathAnnotationCall? then [Path(cs[0].path)] else []) + AddedPaths(cs[1..])
  }

  /** The front-to-back accounts of the calls grow by the last call. */
  lemma {:induction false} MimesSnoc(cs: seq<Call>, c: Call)
    ensures Mimes(cs + [c]) == Mimes(cs) + (if c.ConsumeCall? then [c.mimeType] else [])
  {
    if cs != [] {
      assert (cs + [c])[1..] == cs[1..] + [c];
      MimesSnoc(cs[1..], c);
    }
  }

  lemma {:induction false} AddedPathsSnoc(cs: seq<Call>, c: Call)
    ensures AddedPaths(cs + [c]) == AddedPaths(cs) + (if c.PathAnnotationCall? then [Path(c.path)] else [])
  {
    if cs != [] {
      assert (cs + [c])[1..] == cs[1..] + [c];
      AddedPathsSnoc(cs[1..], c);
    }
  }

  lemma {:induction false} AddedParametersSnoc(build: Build, cs: seq<Call>, c: Call)
    ensures AddedParameters(build, cs + [c]) == AddedParameters(build, cs) + AddedParameters(build, [c])
  {
    if cs != [] {
      assert (cs + [c])[1..] == cs[1..] + [c];
      AddedParametersSnoc(build, cs[1..], c);
    }
  }

  /** Any sequence of builder calls: name, modifiers and return type are those of the
      constructor; parameters and @Path annotations are appended in call order; the
      @Consumes accumulator is untouched unless some addConsumeAnnotation call happened,
      and then holds the earlier values followed by every media type given, duplicates kept. */
  lemma {:induction false} CallsAccumulate(build: Build, s: BuilderState, cs: seq<Call>)
    ensures var r := ApplyAll(build, s, cs);
            && r.spec.name == s.spec.name && r.spec.modifiers == s.spec.modifiers
            && r.spec.returnType == s.spec.returnType
            && r.spec.annotations == s.spec.annotations + AddedPaths(cs)
            && r.spec.parameters == s.spec.parameters + AddedParameters(build, cs)
            && r.consumes == if Mimes(cs) == [] then s.consumes else Some(Consumed(s.consumes) + Mimes(cs))
  {
    if cs != [] {
      var n := |cs| - 1;
      assert cs == cs[..n] + [cs[n]];
      CallsAccumulate(build, s, cs[..n]);
      MimesSnoc(cs[..n], cs[n]);
      AddedPathsSnoc(cs[..n], cs[n]);
      AddedParametersSnoc(build, cs[..n], cs[n]);
      var t := ApplyAll(build, s, cs[..n]);
      assert ApplyAll(build, s, cs) == Apply(build, t, cs[n]);
      match cs[n]
      case ConsumeCall(mimeType) =>
        assert Mimes(cs) == Mimes(cs[..n]) + [mimeType];
        if Mimes(cs[..n]) != [] {
          assert Consumed(t.consumes) == Consumed(s.consumes) + Mimes(cs[..n]);
          assert Consumed(s.consumes) + Mimes(cs[..n]) + [mimeType] == Consumed(s.consumes) + Mimes(cs);
        } else {
          assert Mimes(cs) == [mimeType];
        }
      case _ =>
        assert Mimes(cs) == Mimes(cs[..n]);
    }
  }

  lemma {:induction false} MimesEmptyIff(cs: seq<Call>)
    ensures Mimes(cs) == [] <==> forall j :: 0 <= j < |cs| ==> !cs[j].ConsumeCall?
  {
    if cs != [] {
      MimesEmptyIff(cs[1..]);
      assert forall j :: 1 <= j < |cs| ==> cs[j] == cs[1..][j - 1];
    }
  }

  lemma {:induction false} PathsAreNotConsumes(cs: seq<Call>)
    ensures forall a :: a in AddedPaths(cs) ==> a.Path?
  {
    if cs != [] {
      PathsAreNotConsumes(cs[1..]);
    }
  }

  /** output() on a method built by the constructor and then any calls: the result carries a
      @Consumes annotation if and only if addConsumeAnnotation was called, and that annotation
      comes last and lists the media types in call order. */
  lemma ConsumesAttachedIffConsumeCalled(build: Build, name: string, returnClass: string, httpMethodType: string,
                                         cs: seq<Call>)
    ensures var out := Finished(ApplyAll(build, Initial(name, returnClass, httpMethodType), cs));
            && ((exists i :: 0 <= i < |out.annotations| && out.annotations[i].Consumes?)
                <==> (exists j :: 0 <= j < |cs| && cs[j].ConsumeCall?))
            && out.annotations
               == [HttpMethod(httpMethodType)] + AddedPaths(cs) + (if Mimes(cs) == [] then [] else [Consumes(Mimes(cs))])
  {
    var s := Initial(name, returnClass, httpMethodType);
    CallsAccumulate(build, s, cs);
    MimesEmptyIff(cs);
    PathsAreNotConsumes(cs);
    var r := ApplyAll(build, s, cs);
    var out := Finished(r);
    assert forall i :: 0 <= i < |r.spec.annotations| ==> !r.spec.annotations[i].Consumes? by {
      forall i | 0 <= i < |r.spec.annotations|
        ensures !r.spec.annotations[i].Consumes?
      {
        if i > 0 {
          assert r.spec.annotations[i] in AddedPaths(cs);
        }
      }
    }
    if Mimes(cs) != [] {
      assert r.consumes == Some([] + Mimes(cs));
      assert [] + Mimes(cs) == Mimes(cs);
      assert out.annotations[|out.annotations| - 1].Consumes?;
    }
  }
}

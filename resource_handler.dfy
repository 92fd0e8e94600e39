/** ResourceHandler: walks one top-level resource and drives the resource generator,
    the response class builders and the method builders. Each method is proved to record
    exactly what ResourceModel says. */
module ResourceHandler {
  import opened Raml
  import opened JavaPoet
  import opened MethodDeclarations
  import opened Generators
  import opened ResourceModel
  import opened Seqs

  /** The builder a repeated signature selects, which is all a call may then change. */
  function Hit<K>(seenTypes: map<K, MethodDeclaration>, k: K): set<MethodDeclaration>
  {
    if k in seenTypes then {seenTypes[k]} else {}
  }

  /** The method builders of one handleMethod call, in creation order, and the seenTypes
      map over them, are the objects behind the value-level fold `d`. */
  ghost predicate Simulates<K>(news: seq<MethodDeclaration>, seenTypes: map<K, MethodDeclaration>, d: Dedup<K>)
    reads news
  {
    && Tracks(news, seenTypes, d)
    && (forall q :: 0 <= q < |news| ==> news[q].State() == d.builders[q])
  }

  /** The object structure behind Simulates: distinct builders, one per entry of `d`, and
      seenTypes pointing at the builder whose index `d` records. */
  ghost predicate Tracks<K>(news: seq<MethodDeclaration>, seenTypes: map<K, MethodDeclaration>, d: Dedup<K>)
  {
    && |news| == |d.builders|
    && (forall a, b :: 0 <= a < b < |news| ==> news[a] != news[b])
    && seenTypes.Keys == d.seen.Keys
    && (forall k :: k in seenTypes ==> d.seen[k] < |news| && seenTypes[k] == news[d.seen[k]])
  }

  method SetupResponses(m: Method, responseBuilder: ResponseClassBuilder)
    modifies responseBuilder
    ensures responseBuilder.entries == old(responseBuilder.entries) + ResponseEntries(m.responses)
  {
    ghost var before := responseBuilder.entries;
    for i := 0 to |m.responses|
      invariant responseBuilder.entries == before + ResponseEntries(m.responses[..i])
    {
      var response := m.responses[i];
      ghost var done := responseBuilder.entries;
      if |response.body| == 0 {
        responseBuilder.WithResponse(response.code);
      } else {
        TakeAll([], response.body);
        for j := 0 to |response.body|
          invariant responseBuilder.entries == done + BodyEntries(response.code, response.body[..j])
        {
          var typeDeclaration := response.body[j];
          BodyEntriesSnoc(response.code, response.body, j);
          AppendAssoc(done, BodyEntries(response.code, response.body[..j]),
                      [WithBody(response.code, typeDeclaration.name, typeDeclaration.declaredType)]);
          responseBuilder.WithBodyResponse(response.code, typeDeclaration.name, typeDeclaration.declaredType);
        }
      }
      ResponseEntriesSnoc(m.responses, i);
      AppendAssoc(before, ResponseEntries(m.responses[..i]), ResponseEntriesOf(response));
    }
    TakeAll([], m.responses);
  }

  /** The first branch of buildMethodReceivingType: a new method builder with the query
      parameters of the method, the URI parameters of the resource, the @Path annotation
      of a sub-resource and, for a request body, its entity parameter and @Consumes. */
  method CreateMethodBuilder(resource: Resource, creator: ResourceGenerator, path: string, m: Method,
                             fullMethodName: string, requestTypeDeclaration: Option<TypeDecl>, responseName: string)
    returns (mb: MethodDeclaration)
    requires fullMethodName == FullMethodName(creator.build, Job(resource, m, path))
    requires responseName == ResponseName(creator.build, Job(resource, m, path))
    modifies creator
    ensures creator.documentation == old(creator.documentation) && creator.mediaTypes == old(creator.mediaTypes)
    ensures creator.internalTypes == old(creator.internalTypes) && creator.responseClasses == old(creator.responseClasses)
    ensures fresh(mb) && creator.methods == old(creator.methods) + [mb]
    ensures mb.State() == BuilderState(CreatedSpec(creator.build, Job(resource, m, path), requestTypeDeclaration),
                                       ConsumeBody(None, requestTypeDeclaration))
  {
    var build := creator.build;
    mb := creator.CreateMethod(m.verb, fullMethodName, responseName);
    var queries := m.queryParameters;
    for i := 0 to |queries|
      modifies mb
      invariant mb.consumes.None?
      invariant mb.builder == MethodSpec(fullMethodName, [Abstract, Public], responseName, [HttpMethod(m.verb)],
                                         QueryParameters(build, queries[..i]))
    {
      QueryParametersSnoc(build, queries, i);
      var _ := mb.AddQueryParameter(queries[i].name, queries[i].declaredType);
    }
    TakeAll([], queries);
    var uriParameters := resource.uriParameters;
    for i := 0 to |uriParameters|
      modifies mb
      invariant mb.consumes.None?
      invariant mb.builder == MethodSpec(fullMethodName, [Abstract, Public], responseName, [HttpMethod(m.verb)],
                                         QueryParameters(build, queries) + PathParameters(build, uriParameters[..i]))
    {
      PathParametersSnoc(build, uriParameters, i);
      AppendAssoc(QueryParameters(build, queries), PathParameters(build, uriParameters[..i]),
                  [PathParameter(build, uriParameters[i].name, uriParameters[i].declaredType)]);
      var _ := mb.AddPathParameter(uriParameters[i].name, uriParameters[i].declaredType);
    }
    TakeAll([], uriParameters);
    if path != "" {
      var _ := mb.AddPathAnnotation(path);
    }
    if requestTypeDeclaration.Some? {
      var _ := mb.AddEntityParameter("entity", requestTypeDeclaration.value.declaredType);
      var _ := mb.AddConsumeAnnotation(requestTypeDeclaration.value.name);
    }
  }

  method BuildMethodReceivingType<K(==)>(resource: Resource, creator: ResourceGenerator, path: string, m: Method,
                                         fullMethodName: string, requestTypeDeclaration: Option<TypeDecl>,
                                         responseName: string, seenTypes: map<K, MethodDeclaration>,
                                         sig: (Method, seq<TypeDecl>, Option<TypeDecl>) -> K)
    returns (seen: map<K, MethodDeclaration>)
    requires fullMethodName == FullMethodName(creator.build, Job(resource, m, path))
    requires responseName == ResponseName(creator.build, Job(resource, m, path))
    modifies creator, Hit(seenTypes, sig(m, resource.uriParameters, requestTypeDeclaration))
    ensures creator.documentation == old(creator.documentation) && creator.mediaTypes == old(creator.mediaTypes)
    ensures creator.internalTypes == old(creator.internalTypes) && creator.responseClasses == old(creator.responseClasses)
    ensures var k := sig(m, resource.uriParameters, requestTypeDeclaration);
            var n := |old(creator.methods)|;
            if k !in seenTypes then
              && |creator.methods| == n + 1 && creator.methods[..n] == old(creator.methods)
              && fresh(creator.methods[n]) && seen == seenTypes[k := creator.methods[n]]
              && creator.methods[n].State()
                 == BuilderState(CreatedSpec(creator.build, Job(resource, m, path), requestTypeDeclaration),
                                 ConsumeBody(None, requestTypeDeclaration))
            else
              && creator.methods == old(creator.methods) && seen == seenTypes
              && seenTypes[k].State()
                 == old(seenTypes[k].State()).(consumes := ConsumeBody(old(seenTypes[k].consumes), requestTypeDeclaration))
  {
    var sigValue := sig(m, resource.uriParameters, requestTypeDeclaration);
    if sigValue !in seenTypes {
      var mb := CreateMethodBuilder(resource, creator, path, m, fullMethodName, requestTypeDeclaration, responseName);
      assert creator.methods[..|old(creator.methods)|] == old(creator.methods);
      seen := seenTypes[sigValue := mb];
    } else {
      var builder := seenTypes[sigValue];
      if requestTypeDeclaration.Some? {
        var _ := builder.AddConsumeAnnotation(requestTypeDeclaration.value.name);
      }
      seen := seenTypes;
    }
  }

  lemma SimulatedStates<K>(news: seq<MethodDeclaration>, seenTypes: map<K, MethodDeclaration>, d: Dedup<K>)
    requires Simulates(news, seenTypes, d)
    ensures States(news) == d.builders
  {
  }

  /** One buildMethodReceivingType call seen through the fold: after the variants vs[..i]
      have been received, the builders of the current handleMethod call and its seenTypes map
      go on simulating ReceiveAll once vs[i] is received too. */
  method ReceiveVariant<K(==)>(resource: Resource, creator: ResourceGenerator, path: string, m: Method,
                               fullMethodName: string, body: Option<TypeDecl>, responseName: string,
                               seenTypes: map<K, MethodDeclaration>, sig: (Method, seq<TypeDecl>, Option<TypeDecl>) -> K,
                               ghost vs: seq<Option<TypeDecl>>, ghost ks: seq<K>, ghost i: nat,
                               ghost news: seq<MethodDeclaration>)
    returns (seen: map<K, MethodDeclaration>, ghost news': seq<MethodDeclaration>)
    requires fullMethodName == FullMethodName(creator.build, Job(resource, m, path))
    requires responseName == ResponseName(creator.build, Job(resource, m, path))
    requires |vs| == |ks| && i < |vs| && vs[i] == body && ks[i] == sig(m, resource.uriParameters, body)
    requires Simulates(news, seenTypes, ReceiveAll(creator.build, Job(resource, m, path), vs[..i], ks[..i]))
    modifies creator, Hit(seenTypes, sig(m, resource.uriParameters, body))
    ensures creator.documentation == old(creator.documentation) && creator.mediaTypes == old(creator.mediaTypes)
    ensures creator.internalTypes == old(creator.internalTypes) && creator.responseClasses == old(creator.responseClasses)
    ensures Simulates(news', seen, ReceiveAll(creator.build, Job(resource, m, path), vs[..i + 1], ks[..i + 1]))
    ensures var n := |old(creator.methods)|;
            if ks[i] !in ks[..i] then
              && |creator.methods| == n + 1 && fresh(creator.methods[n])
              && creator.methods == old(creator.methods) + [creator.methods[n]] && news' == news + [creator.methods[n]]
            else
              creator.methods == old(creator.methods) && news' == news
  {
    ghost var job := Job(resource, m, path);
    ghost var k := ks[i];
    ghost var n := |creator.methods|;
    ghost var d := ReceiveAll(creator.build, job, vs[..i], ks[..i]);
    assert k in d.seen <==> k in ks[..i];
    seen := BuildMethodReceivingType(resource, creator, path, m, fullMethodName, body, responseName, seenTypes, sig);
    ReceiveAllSnoc(creator.build, job, vs, ks, i);
    ghost var d' := Receive(d, creator.build, job, body, k);
    if k !in d.seen {
      TakeLast(creator.methods);
      news' := news + [creator.methods[n]];
      assert forall q :: 0 <= q < |news| ==> news'[q].State() == old(news[q].State()) == d'.builders[q];
      assert creator.methods[n] !in news;
      TracksNew(news, seenTypes, d, creator.methods[n], k, creator.methods[n].State());
    } else {
      news' := news;
      ghost var p := d.seen[k];
      assert forall q :: 0 <= q < |news| && q != p ==> news[q].State() == old(news[q].State()) == d'.builders[q];
    }
  }

  /** A builder no earlier one aliases, under a new signature, extends the correspondence. */
  lemma TracksNew<K>(news: seq<MethodDeclaration>, seenTypes: map<K, MethodDeclaration>, d: Dedup<K>,
                     mb: MethodDeclaration, k: K, st: BuilderState)
    requires Tracks(news, seenTypes, d) && k !in d.seen && mb !in news
    ensures Tracks(news + [mb], seenTypes[k := mb], Dedup(d.seen[k := |d.builders|], d.builders + [st]))
  {
    var news' := news + [mb];
    forall a, b | 0 <= a < b < |news'|
      ensures news'[a] != news'[b]
    {
      if b == |news| {
        assert news'[a] == news[a];
      }
    }
  }

  /** HandleMethodSpec, taken apart into the three lists a handleMethod call extends. */
  lemma HandleMethodSpecParts<K>(g: GeneratedResource, api: Api, build: Build,
                                 sig: (Method, seq<TypeDecl>, Option<TypeDecl>) -> K, job: Job,
                                 internalTypes: seq<InternalType>, rc: ResponseClass, d: Dedup<K>)
    requires ParentsWellTyped(api) && NamesAreIdentifiers(build)
    requires internalTypes == g.internalTypes + InternalTypes(api, job.m.body, MethodAsTypeName(FullMethodName(build, job)))
    requires rc == ResponseClass(job.m.verb, MethodNameSuffix(build, job), ResponseName(build, job), ResponseEntries(job.m.responses))
    requires d == ReceiveAll(build, job, BodyVariants(job.m), Signatures(sig, job, BodyVariants(job.m)))
    ensures HandleMethodSpec(g, api, build, sig, job)
            == g.(internalTypes := internalTypes, responseClasses := g.responseClasses + [rc], methods := g.methods + d.builders)
  {
  }

  /** One pass of handleMethod's loop over the request bodies: the internal type the body
      may need, then the method builder it is received by. */
  method ReceiveRequestType<K(==)>(api: Api, resource: Resource, creator: ResourceGenerator, path: string, m: Method,
                                   fullMethodName: string, requestTypeDeclaration: TypeDecl, responseName: string,
                                   seenTypes: map<K, MethodDeclaration>, sig: (Method, seq<TypeDecl>, Option<TypeDecl>) -> K,
                                   ghost vs: seq<Option<TypeDecl>>, ghost ks: seq<K>, ghost i: nat,
                                   ghost news: seq<MethodDeclaration>)
    returns (seen: map<K, MethodDeclaration>, ghost news': seq<MethodDeclaration>)
    requires ParentsWellTyped(api) && NamesAreIdentifiers(creator.build)
    requires fullMethodName == FullMethodName(creator.build, Job(resource, m, path))
    requires responseName == ResponseName(creator.build, Job(resource, m, path))
    requires |vs| == |ks| && i < |vs| && vs[i] == Some(requestTypeDeclaration)
    requires ks[i] == sig(m, resource.uriParameters, Some(requestTypeDeclaration))
    requires Simulates(news, seenTypes, ReceiveAll(creator.build, Job(resource, m, path), vs[..i], ks[..i]))
    modifies creator, Hit(seenTypes, sig(m, resource.uriParameters, Some(requestTypeDeclaration)))
    ensures creator.documentation == old(creator.documentation) && creator.mediaTypes == old(creator.mediaTypes)
    ensures creator.responseClasses == old(creator.responseClasses)
    ensures creator.internalTypes
            == old(creator.internalTypes)
               + (if IsNewTypeDeclaration(api, requestTypeDeclaration)
                  then [InternalType(requestTypeDeclaration, MethodAsTypeName(fullMethodName))] else [])
    ensures Simulates(news', seen, ReceiveAll(creator.build, Job(resource, m, path), vs[..i + 1], ks[..i + 1]))
    ensures var n := |old(creator.methods)|;
            if ks[i] !in ks[..i] then
              && |creator.methods| == n + 1 && fresh(creator.methods[n])
              && creator.methods == old(creator.methods) + [creator.methods[n]] && news' == news + [creator.methods[n]]
            else
              creator.methods == old(creator.methods) && news' == news
  {
    if IsNewTypeDeclaration(api, requestTypeDeclaration) {
      var methodAsTypeName := MethodAsTypeName(fullMethodName);
      creator.AddInternalType(InternalType(requestTypeDeclaration, methodAsTypeName));
    }
    seen, news' := ReceiveVariant(resource, creator, path, m, fullMethodName, Some(requestTypeDeclaration),
                                  responseName, seenTypes, sig, vs, ks, i, news);
  }

  /** The tail of handleMethod: a body-less method is received once with no request type,
      otherwise every request body is received in order. The seenTypes map is local to one
      call. The new builders simulate the fold ReceiveAll. */
  method ReceiveBodies<K(==)>(api: Api, resource: Resource, creator: ResourceGenerator, path: string, m: Method,
                              fullMethodName: string, responseName: string,
                              sig: (Method, seq<TypeDecl>, Option<TypeDecl>) -> K)
    returns (ghost news: seq<MethodDeclaration>)
    requires ParentsWellTyped(api) && NamesAreIdentifiers(creator.build)
    requires fullMethodName == FullMethodName(creator.build, Job(resource, m, path))
    requires responseName == ResponseName(creator.build, Job(resource, m, path))
    modifies creator
    ensures creator.documentation == old(creator.documentation) && creator.mediaTypes == old(creator.mediaTypes)
    ensures creator.responseClasses == old(creator.responseClasses)
    ensures creator.internalTypes
            == old(creator.internalTypes) + InternalTypes(api, m.body, MethodAsTypeName(fullMethodName))
    ensures creator.methods == old(creator.methods) + news
    ensures States(news) == ReceiveAll(creator.build, Job(resource, m, path), BodyVariants(m),
                                       Signatures(sig, Job(resource, m, path), BodyVariants(m))).builders
  {
    if m.body == [] {
      ghost var job := Job(resource, m, path);
      ghost var vs := BodyVariants(m);
      ghost var ks := Signatures(sig, job, vs);
      var seenTypes: map<K, MethodDeclaration> := map[];
      TakeAll([], vs);
      TakeAll([], ks);
      seenTypes, news := ReceiveVariant(resource, creator, path, m, fullMethodName, None,
                                        responseName, seenTypes, sig, vs, ks, 0, []);
      assert InternalTypes(api, m.body, MethodAsTypeName(fullMethodName)) == [];
      SimulatedStates(news, seenTypes, ReceiveAll(creator.build, job, vs, ks));
    } else {
      news := ReceiveRequestTypes(api, resource, creator, path, m, fullMethodName, responseName, sig);
    }
  }

  /** handleMethod's loop over the request bodies of a method that has some: each body may
      add an internal type and is received by the builder of its signature. */
  method ReceiveRequestTypes<K(==)>(api: Api, resource: Resource, creator: ResourceGenerator, path: string, m: Method,
                                    fullMethodName: string, responseName: string,
                                    sig: (Method, seq<TypeDecl>, Option<TypeDecl>) -> K)
    returns (ghost news: seq<MethodDeclaration>)
    requires ParentsWellTyped(api) && NamesAreIdentifiers(creator.build)
    requires fullMethodName == FullMethodName(creator.build, Job(resource, m, path))
    requires responseName == ResponseName(creator.build, Job(resource, m, path))
    requires m.body != []
    modifies creator
    ensures creator.documentation == old(creator.documentation) && creator.mediaTypes == old(creator.mediaTypes)
    ensures creator.responseClasses == old(creator.responseClasses)
    ensures creator.internalTypes
            == old(creator.internalTypes) + InternalTypes(api, m.body, MethodAsTypeName(fullMethodName))
    ensures creator.methods == old(creator.methods) + news
    ensures States(news) == ReceiveAll(creator.build, Job(resource, m, path), BodyVariants(m),
                                       Signatures(sig, Job(resource, m, path), BodyVariants(m))).builders
  {
    ghost var job := Job(resource, m, path);
    ghost var methods0 := creator.methods;
    ghost var internal0 := creator.internalTypes;
    ghost var vs := BodyVariants(m);
    ghost var ks := Signatures(sig, job, vs);
    ghost var typeName := MethodAsTypeName(fullMethodName);
    var seenTypes: map<K, MethodDeclaration> := map[];
    news := [];
    TakeAll([], vs);
    TakeAll([], ks);
    TakeAll([], m.body);
    for i := 0 to |m.body|
      invariant creator.documentation == old(creator.documentation) && creator.mediaTypes == old(creator.mediaTypes)
      invariant creator.responseClasses == old(creator.responseClasses)
      invariant creator.internalTypes == internal0 + InternalTypes(api, m.body[..i], typeName)
      invariant creator.methods == methods0 + news && forall q :: 0 <= q < |news| ==> fresh(news[q])
      invariant Simulates(news, seenTypes, ReceiveAll(creator.build, job, vs[..i], ks[..i]))
    {
      var requestTypeDeclaration := m.body[i];
      ghost var news0 := news;
      ghost var internal1 := creator.internalTypes;
      assert vs[i] == Some(requestTypeDeclaration);
      assert ks[i] == sig(m, resource.uriParameters, Some(requestTypeDeclaration));
      assert forall o :: o in Hit(seenTypes, ks[i]) ==> fresh(o);
      seenTypes, news := ReceiveRequestType(api, resource, creator, path, m, fullMethodName, requestTypeDeclaration,
                                            responseName, seenTypes, sig, vs, ks, i, news);
      InternalTypesSnoc(api, m.body, typeName, i);
      AppendAssoc(internal0, InternalTypes(api, m.body[..i], typeName), creator.internalTypes[|internal1|..]);
      if ks[i] !in ks[..i] {
        AppendAssoc(methods0, news0, [news[|news0|]]);
        assert forall q :: 0 <= q < |news| ==> news[q] == if q < |news0| then news0[q] else news[|news0|];
      }
    }
    assert creator.internalTypes == internal0 + InternalTypes(api, m.body, typeName);
    SimulatedStates(news, seenTypes, ReceiveAll(creator.build, job, vs, ks));
  }

  method HandleMethod<K(==)>(api: Api, resource: Resource, creator: ResourceGenerator, m: Method,
                             resourcePath: string, sig: (Method, seq<TypeDecl>, Option<TypeDecl>) -> K)
    requires ParentsWellTyped(api) && NamesAreIdentifiers(creator.build)
    modifies creator
    ensures creator.Model() == HandleMethodSpec(old(creator.Model()), api, creator.build, sig, Job(resource, m, resourcePath))
  {
    ghost var job := Job(resource, m, resourcePath);
    ghost var g0 := creator.Model();
    ghost var methods0 := creator.methods;
    ghost var responses0 := creator.responseClasses;
    var queryNames := Names(m.queryParameters);
    var fullMethodName := creator.build.methodName(m.verb, resourcePath, queryNames);
    var methodNameSuffix := creator.build.methodNameSuffix(resourcePath, queryNames);
    var response := creator.CreateResponseClassBuilder(m.verb, methodNameSuffix);
    SetupResponses(m, response);
    ghost var rc := response.Value();
    ghost var news := ReceiveBodies(api, resource, creator, resourcePath, m, fullMethodName, response.name, sig);
    assert forall q :: 0 <= q < |methods0| ==> methods0[q].State() == g0.methods[q];
    assert forall q :: 0 <= q < |responses0| ==> responses0[q].Value() == g0.responseClasses[q];
    assert States(methods0) == g0.methods;
    assert Values(responses0) == g0.responseClasses;
    StatesAppend(methods0, news);
    ValuesAppend(responses0, [response]);
    assert Values([response]) == [rc];
    ghost var d := ReceiveAll(creator.build, job, BodyVariants(m), Signatures(sig, job, BodyVariants(m)));
    HandleMethodSpecParts(g0, api, creator.build, sig, job, creator.internalTypes, rc, d);
    assert creator.Model() == g0.(internalTypes := creator.internalTypes, responseClasses := g0.responseClasses + [rc],
                                  methods := g0.methods + d.builders);
  }

  /** The loop handle and handleSubResources share: every method of `methods`, in order,
      handled against `target` at `path`. */
  method HandleMethods<K(==)>(api: Api, target: Resource, creator: ResourceGenerator, methods: seq<Method>, path: string,
                              sig: (Method, seq<TypeDecl>, Option<TypeDecl>) -> K)
    requires ParentsWellTyped(api) && NamesAreIdentifiers(creator.build)
    modifies creator
    ensures creator.Model() == RunJobs(old(creator.Model()), api, creator.build, sig, Projected(methods, target, path))
  {
    ghost var g0 := creator.Model();
    ghost var jobs := Projected(methods, target, path);
    for j := 0 to |methods|
      invariant creator.Model() == RunJobs(g0, api, creator.build, sig, jobs[..j])
    {
      HandleMethod(api, target, creator, methods[j], path, sig);
      PrefixSnoc([], jobs, j);
      RunJobsSnoc(g0, api, creator.build, sig, jobs[..j], jobs[j]);
    }
    TakeAll([], jobs);
  }

  method HandleSubResources<K(==)>(api: Api, resource: Resource, creator: ResourceGenerator, subresourcePath: string,
                                   sig: (Method, seq<TypeDecl>, Option<TypeDecl>) -> K)
    requires ParentsWellTyped(api) && NamesAreIdentifiers(creator.build)
    modifies creator
    decreases resource, 1
    ensures creator.Model()
            == RunJobs(old(creator.Model()), api, creator.build, sig, SubJobs(resource, subresourcePath, |resource.resources|))
  {
    ghost var g0 := creator.Model();
    for i := 0 to |resource.resources|
      invariant creator.Model() == RunJobs(g0, api, creator.build, sig, SubJobs(resource, subresourcePath, i))
    {
      HandleSubResource(api, resource, i, creator, subresourcePath, sig);
      RunJobsAppend(g0, api, creator.build, sig, SubJobs(resource, subresourcePath, i),
                    ChildJobs(resource, subresourcePath, i));
    }
  }

  /** One pass of handleSubResources' loop: the parent's methods projected onto the i-th
      sub-resource, then that sub-resource's own sub-resources. */
  method HandleSubResource<K(==)>(api: Api, resource: Resource, i: nat, creator: ResourceGenerator,
                                  subresourcePath: string, sig: (Method, seq<TypeDecl>, Option<TypeDecl>) -> K)
    requires ParentsWellTyped(api) && NamesAreIdentifiers(creator.build)
    requires i < |resource.resources|
    modifies creator
    decreases resource, 0
    ensures creator.Model()
            == RunJobs(old(creator.Model()), api, creator.build, sig, ChildJobs(resource, subresourcePath, i))
  {
    ghost var g0 := creator.Model();
    var subresource := resource.resources[i];
    var path := subresourcePath + subresource.relativeUri;
    ghost var projected := Projected(resource.methods, subresource, path);
    ghost var nested := SubJobs(subresource, path, |subresource.resources|);
    HandleMethods(api, subresource, creator, resource.methods, path, sig);
    HandleSubResources(api, subresource, creator, path, sig);
    RunJobsAppend(g0, api, creator.build, sig, projected, nested);
  }

  /** handle(api, resource). The generator createResource returns is registered with the
      build; here it is returned. */
  method Handle<K(==)>(api: Api, resource: Resource, build: Build,
                       sig: (Method, seq<TypeDecl>, Option<TypeDecl>) -> K)
    returns (creator: ResourceGenerator)
    requires ParentsWellTyped(api) && NamesAreIdentifiers(build)
    ensures fresh(creator) && creator.build == build
    ensures creator.Model() == HandleSpec(api, build, sig, resource)
  {
    creator := new ResourceGenerator(build, resource.displayName, resource.relativeUri);
    if resource.description.Some? {
      creator.WithDocumentation(resource.description.value + "\n");
    }
    if api.mediaTypes != [] {
      creator.MediaType(api.mediaTypes);
    }
    ghost var g0 := InitialResource(api, resource);
    ghost var top := Projected(resource.methods, resource, "");
    HandleMethods(api, resource, creator, resource.methods, "", sig);
    HandleSubResources(api, resource, creator, "", sig);
    RunJobsAppend(g0, api, build, sig, top, SubJobs(resource, "", |resource.resources|));
  }
}

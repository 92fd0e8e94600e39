/** The resource handler as pure functions: what `handle` records in the resource
    generator, job by job. ResourceHandler's methods are proved to produce exactly this,
    and ResourceProperties proves what it promises.

    Two recursions are each spread over three functions: ReceiveAll, ReceiveLast and
    ReceiveLastBody, and RunJobs, RunLast and HandleLast. The middle and last functions
    carry no meaning of their own. They only keep the solver from unfolding a whole
    buildMethodReceivingType or handleMethod effect each time the outer function is
    mentioned. */
module ResourceModel {
  import opened Raml
  import opened JavaPoet
  import opened MethodDeclarations
  import opened Generators
  import opened Seqs

  // ---------------------------------------------------------------------------
  // isNewTypeDeclaration

  /** The cast of the single parent to ObjectTypeDeclaration succeeds. */
  predicate SoleParentIsObject(api: Api, declaration: TypeDecl)
  {
    declaration.shape.ObjectShape? && |api.parentTypes(declaration)| == 1 ==>
      api.parentTypes(declaration)[0].shape.ObjectShape?
  }

  ghost predicate ParentsWellTyped(api: Api)
  {
    forall d :: SoleParentIsObject(api, d)
  }

  /** Whether a request body needs an internal type of its own: only an object type can be
      new; one without parents always is; one that merely re-declares its single parent's
      properties never is. */
  function IsNewTypeDeclaration(api: Api, declaration: TypeDecl): (r: bool)
    requires SoleParentIsObject(api, declaration)
    ensures r ==> declaration.shape.ObjectShape?
    ensures declaration.shape.ObjectShape? && api.parentTypes(declaration) == [] ==> r
    ensures (declaration.shape.ObjectShape? && |api.parentTypes(declaration)| == 1
             && |api.parentTypes(declaration)[0].shape.properties| >= |declaration.shape.properties|) ==> !r
  {
    if !declaration.shape.ObjectShape? then false
    else
      var parents := api.parentTypes(declaration);
      if |parents| != 1 then true
      else |parents[0].shape.properties| < |declaration.shape.properties|
  }

  // ---------------------------------------------------------------------------
  // Names

  /** Character.toUpperCase, for the ASCII letters. */
  function ToUpperCase(c: char): (r: char)
    ensures !('a' <= r <= 'z')
    ensures 'a' <= c <= 'z' ==> 'A' <= r <= 'Z' && r as int - 'A' as int == c as int - 'a' as int
    ensures !('a' <= c <= 'z') ==> r == c
  {
    if 'a' <= c <= 'z' then (c as int - 32) as char else c
  }

  /** The name of the internal type of a novel body: the method name, capitalised. */
  function MethodAsTypeName(fullMethodName: string): (t: string)
    requires |fullMethodName| > 0
    ensures |t| == |fullMethodName| && t[1..] == fullMethodName[1..]
    ensures !('a' <= t[0] <= 'z')
    ensures !('a' <= fullMethodName[0] <= 'z') ==> t == fullMethodName
  {
    [ToUpperCase(fullMethodName[0])] + fullMethodName[1..]
  }

  /** Names.methodName never derives the empty name (charAt(0) is taken of it). */
  ghost predicate NamesAreIdentifiers(build: Build)
  {
    forall verb, path, queries :: build.methodName(verb, path, queries) != ""
  }

  /** One handleMethod call: a method built against a target resource at a path. */
  datatype Job = Job(target: Resource, m: Method, path: string)

  function FullMethodName(build: Build, job: Job): string
  {
    build.methodName(job.m.verb, job.path, Names(job.m.queryParameters))
  }

  function MethodNameSuffix(build: Build, job: Job): string
  {
    build.methodNameSuffix(job.path, Names(job.m.queryParameters))
  }

  function ResponseName(build: Build, job: Job): string
  {
    build.responseClassName(job.m.verb, MethodNameSuffix(build, job))
  }

  // ---------------------------------------------------------------------------
  // setupResponses

  function BodyEntries(code: string, bodies: seq<TypeDecl>): (r: seq<ResponseEntry>)
    ensures |r| == |bodies|
    ensures forall j :: 0 <= j < |r| ==> r[j].code == code
  {
    if bodies == [] then []
    else
      var d := bodies[|bodies| - 1];
      BodyEntries(code, bodies[..|bodies| - 1]) + [WithBody(code, d.name, d.declaredType)]
  }

  /** The entries one declared response contributes. */
  function ResponseEntriesOf(r: Response): (es: seq<ResponseEntry>)
    ensures |es| >= 1 && |es| >= |r.body|
    ensures forall j :: 0 <= j < |es| ==> es[j].code == r.code
  {
    if |r.body| == 0 then [StatusOnly(r.code)] else BodyEntries(r.code, r.body)
  }

  /** The entries setupResponses records, response by response. */
  function ResponseEntries(rs: seq<Response>): (es: seq<ResponseEntry>)
    ensures |es| >= |rs|
    ensures forall j :: 0 <= j < |es| ==> exists k :: 0 <= k < |rs| && es[j].code == rs[k].code
  {
    if rs == [] then [] else ResponseEntries(rs[..|rs| - 1]) + ResponseEntriesOf(rs[|rs| - 1])
  }

  // ---------------------------------------------------------------------------
  // buildMethodReceivingType

  /** The request bodies buildMethodReceivingType is called with; None models null. */
  function BodyVariants(m: Method): seq<Option<TypeDecl>>
  {
    if m.body == [] then [None] else seq(|m.body|, i requires 0 <= i < |m.body| => Some(m.body[i]))
  }

  /** MethodSignature.signature of each variant; K is any type with equality. */
  function Signatures<K>(sig: (Method, seq<TypeDecl>, Option<TypeDecl>) -> K, job: Job,
                         vs: seq<Option<TypeDecl>>): (ks: seq<K>)
    ensures |ks| == |vs|
  {
    seq(|vs|, i requires 0 <= i < |vs| => sig(job.m, job.target.uriParameters, vs[i]))
  }

  function QueryParameters(build: Build, qs: seq<TypeDecl>): (ps: seq<Parameter>)
    ensures |ps| == |qs|
  {
    if qs == [] then []
    else
      var q := qs[|qs| - 1];
      QueryParameters(build, qs[..|qs| - 1]) + [QueryParameter(build, q.name, q.declaredType)]
  }

  function PathParameters(build: Build, ps: seq<TypeDecl>): (r: seq<Parameter>)
    ensures |r| == |ps|
  {
    if ps == [] then []
    else
      var p := ps[|ps| - 1];
      PathParameters(build, ps[..|ps| - 1]) + [PathParameter(build, p.name, p.declaredType)]
  }

  /** The method annotations: the HTTP method, then @Path unless the path is empty. */
  function MethodAnnotations(job: Job): seq<Annotation>
  {
    [HttpMethod(job.m.verb)] + (if job.path == "" then [] else [Path(job.path)])
  }

  /** The method the first body with a new signature creates, before any consume entry. */
  function CreatedSpec(build: Build, job: Job, body: Option<TypeDecl>): (m: MethodSpec)
    ensures m.modifiers == [Abstract, Public] && m.returnType == ResponseName(build, job)
    ensures |m.annotations| == (if job.path == "" then 1 else 2) && m.annotations[0] == HttpMethod(job.m.verb)
    ensures |m.parameters| == |job.m.queryParameters| + |job.target.uriParameters| + (if body.Some? then 1 else 0)
    ensures body.Some? ==> m.parameters[|m.parameters| - 1].name == "entity"
                           && m.parameters[|m.parameters| - 1].javaType == build.javaTypeName(body.value.declaredType)
  {
    MethodSpec(
      FullMethodName(build, job), [Abstract, Public], ResponseName(build, job), MethodAnnotations(job),
      QueryParameters(build, job.m.queryParameters) + PathParameters(build, job.target.uriParameters)
        + (if body.Some? then [EntityParameter(build, "entity", body.value.declaredType)] else []))
  }

  /** addConsumeAnnotation(body.name), when there is a body. */
  function ConsumeBody(consumes: Option<seq<string>>, body: Option<TypeDecl>): Option<seq<string>>
  {
    if body.Some? then Some(Consumed(consumes) + [body.value.name]) else consumes
  }

  /** seenTypes (signature to the index of its builder) and the builders created so far. */
  datatype Dedup<K> = Dedup(seen: map<K, nat>, builders: seq<BuilderState>)

  predicate DedupValid<K>(d: Dedup<K>)
  {
    forall k :: k in d.seen ==> d.seen[k] < |d.builders|
  }

  /** One buildMethodReceivingType call, with signature k for `body`. */
  function Receive<K>(d: Dedup<K>, build: Build, job: Job, body: Option<TypeDecl>, k: K): (r: Dedup<K>)
    requires DedupValid(d)
    ensures DedupValid(r) && r.seen.Keys == d.seen.Keys + {k}
  {
    if k !in d.seen then
      Dedup(d.seen[k := |d.builders|], d.builders + [BuilderState(CreatedSpec(build, job, body), ConsumeBody(None, body))])
    else
      var p := d.seen[k];
      Dedup(d.seen, d.builders[p := d.builders[p].(consumes := ConsumeBody(d.builders[p].consumes, body))])
  }

  /** The calls of one handleMethod, from a fresh seenTypes, in body order. */
  function ReceiveAll<K>(build: Build, job: Job, vs: seq<Option<TypeDecl>>, ks: seq<K>): (r: Dedup<K>)
    requires |vs| == |ks|
    ensures DedupValid(r)
    ensures r.seen.Keys == set k | k in ks
    decreases |vs|, 2
  {
    if vs == [] then Dedup(map[], []) else ReceiveLast(build, job, vs, ks)
  }

  /** The last variant received after all the others. As with RunJobs, the recursion passes
      through two functions so that unfolding ReceiveAll does not expose Receive. */
  function ReceiveLast<K>(build: Build, job: Job, vs: seq<Option<TypeDecl>>, ks: seq<K>): (r: Dedup<K>)
    requires |vs| == |ks| && vs != []
    ensures DedupValid(r)
    ensures r.seen.Keys == set k | k in ks
    decreases |vs|, 1
  {
    ReceiveLastBody(build, job, vs, ks)
  }

  function ReceiveLastBody<K>(build: Build, job: Job, vs: seq<Option<TypeDecl>>, ks: seq<K>): (r: Dedup<K>)
    requires |vs| == |ks| && vs != []
    ensures DedupValid(r)
    ensures r.seen.Keys == set k | k in ks
    decreases |vs|, 0
  {
    var n := |vs| - 1;
    assert ks == ks[..n] + [ks[n]];
    Receive(ReceiveAll(build, job, vs[..n], ks[..n]), build, job, vs[n], ks[n])
  }

  // ---------------------------------------------------------------------------
  // The same builders, defined without the map: one per distinct signature.

  /** The distinct signatures, in order of first occurrence. */
  function Distinct<K(==)>(ks: seq<K>): seq<K>
  {
    if ks == [] then []
    else
      var d := Distinct(ks[..|ks| - 1]);
      if ks[|ks| - 1] in d then d else d + [ks[|ks| - 1]]
  }

  /** The body of the first variant whose signature is k. */
  function FirstBody<K(==)>(vs: seq<Option<TypeDecl>>, ks: seq<K>, k: K): Option<TypeDecl>
    requires |vs| == |ks|
  {
    if vs == [] then None
    else
      var n := |vs| - 1;
      if k in ks[..n] then FirstBody(vs[..n], ks[..n], k)
      else if ks[n] == k then vs[n]
      else None
  }

  /** The names of all bodies whose signature is k, in body order, duplicates kept. */
  function ConsumesOf<K(==)>(vs: seq<Option<TypeDecl>>, ks: seq<K>, k: K): seq<string>
    requires |vs| == |ks|
  {
    if vs == [] then []
    else
      var n := |vs| - 1;
      ConsumesOf(vs[..n], ks[..n], k) + (if ks[n] == k && vs[n].Some? then [vs[n].value.name] else [])
  }

  function BuilderFor<K(==)>(build: Build, job: Job, vs: seq<Option<TypeDecl>>, ks: seq<K>, k: K): BuilderState
    requires |vs| == |ks|
  {
    var names := ConsumesOf(vs, ks, k);
    BuilderState(CreatedSpec(build, job, FirstBody(vs, ks, k)), if names == [] then None else Some(names))
  }

  function Reference<K(==)>(build: Build, job: Job, vs: seq<Option<TypeDecl>>, ks: seq<K>): seq<BuilderState>
    requires |vs| == |ks|
  {
    var d := Distinct(ks);
    seq(|d|, j requires 0 <= j < |d| => BuilderFor(build, job, vs, ks, d[j]))
  }

  // ---------------------------------------------------------------------------
  // handleMethod and the walk

  /** The internal types requested for the novel bodies, in body order. */
  function InternalTypes(api: Api, bodies: seq<TypeDecl>, typeName: string): seq<InternalType>
    requires ParentsWellTyped(api)
  {
    if bodies == [] then []
    else
      var d := bodies[|bodies| - 1];
      InternalTypes(api, bodies[..|bodies| - 1], typeName)
        + (if IsNewTypeDeclaration(api, d) then [InternalType(d, typeName)] else [])
  }

  /** What one handleMethod call adds to the resource generator. */
  function HandleMethodSpec<K(==)>(g: GeneratedResource, api: Api, build: Build,
                               sig: (Method, seq<TypeDecl>, Option<TypeDecl>) -> K, job: Job): (h: GeneratedResource)
    requires ParentsWellTyped(api) && NamesAreIdentifiers(build)
    ensures h.name == g.name && h.uri == g.uri && h.documentation == g.documentation && h.mediaTypes == g.mediaTypes
    ensures |h.responseClasses| == |g.responseClasses| + 1 && h.responseClasses[..|g.responseClasses|] == g.responseClasses
    ensures h.responseClasses[|g.responseClasses|].verb == job.m.verb
            && h.responseClasses[|g.responseClasses|].entries == ResponseEntries(job.m.responses)
    ensures |g.internalTypes| <= |h.internalTypes| <= |g.internalTypes| + |job.m.body|
            && h.internalTypes[..|g.internalTypes|] == g.internalTypes
    ensures |g.methods| < |h.methods| <= |g.methods| + |BodyVariants(job.m)| && h.methods[..|g.methods|] == g.methods
  {
    var fullName := FullMethodName(build, job);
    var suffix := MethodNameSuffix(build, job);
    var vs := BodyVariants(job.m);
    ReceiveAllCount(build, job, vs, Signatures(sig, job, vs));
    InternalTypesCount(api, job.m.body, MethodAsTypeName(fullName));
    g.(internalTypes := g.internalTypes + InternalTypes(api, job.m.body, MethodAsTypeName(fullName)),
       responseClasses := g.responseClasses
         + [ResponseClass(job.m.verb, suffix, build.responseClassName(job.m.verb, suffix), ResponseEntries(job.m.responses))],
       methods := g.methods + ReceiveAll(build, job, vs, Signatures(sig, job, vs)).builders)
  }

  /** handleMethod calls run one after the other against the same generator: the generator
      after `jobs` is the last job handled after all the others. The recursion passes through
      RunLast and HandleLast so that unfolding RunJobs a couple of times does not expose a
      whole handleMethod effect to the solver. */
  function RunJobs<K(==)>(g: GeneratedResource, api: Api, build: Build,
                      sig: (Method, seq<TypeDecl>, Option<TypeDecl>) -> K, jobs: seq<Job>): GeneratedResource
    requires ParentsWellTyped(api) && NamesAreIdentifiers(build)
    decreases |jobs|, 2
  {
    if jobs == [] then g else RunLast(g, api, build, sig, jobs)
  }

  function RunLast<K(==)>(g: GeneratedResource, api: Api, build: Build,
                      sig: (Method, seq<TypeDecl>, Option<TypeDecl>) -> K, jobs: seq<Job>): GeneratedResource
    requires ParentsWellTyped(api) && NamesAreIdentifiers(build)
    requires jobs != []
    decreases |jobs|, 1
  {
    HandleLast(g, api, build, sig, jobs)
  }

  function HandleLast<K(==)>(g: GeneratedResource, api: Api, build: Build,
                         sig: (Method, seq<TypeDecl>, Option<TypeDecl>) -> K, jobs: seq<Job>): GeneratedResource
    requires ParentsWellTyped(api) && NamesAreIdentifiers(build)
    requires jobs != []
    decreases |jobs|, 0
  {
    HandleMethodSpec(RunJobs(g, api, build, sig, jobs[..|jobs| - 1]), api, build, sig, jobs[|jobs| - 1])
  }

  /** Every method in `methods` built against `target` at `path`. */
  function Projected(methods: seq<Method>, target: Resource, path: string): (jobs: seq<Job>)
    ensures |jobs| == |methods|
  {
    seq(|methods|, i requires 0 <= i < |methods| => Job(target, methods[i], path))
  }

  /** The handleMethod calls of handleSubResources(r, prefix) for r's first n children. */
  function SubJobs(r: Resource, prefix: string, n: nat): (jobs: seq<Job>)
    requires n <= |r.resources|
    decreases r, n
    ensures |jobs| >= n * |r.methods|
  {
    if n == 0 then [] else SubJobs(r, prefix, n - 1) + ChildJobs(r, prefix, n - 1)
  }

  /** The calls one pass of handleSubResources(r, prefix) makes for child i: r's own methods
      projected onto the child at prefix + the child's URI, then the child's sub-resources. */
  function ChildJobs(r: Resource, prefix: string, i: nat): (jobs: seq<Job>)
    requires i < |r.resources|
    decreases r, i
    ensures |jobs| >= |r.methods|
    ensures forall q :: 0 <= q < |r.methods| ==>
              jobs[q] == Job(r.resources[i], r.methods[q], prefix + r.resources[i].relativeUri)
  {
    var child := r.resources[i];
    var path := prefix + child.relativeUri;
    Projected(r.methods, child, path) + SubJobs(child, path, |child.resources|)
  }

  /** All handleMethod calls of handle(api, r), in call order. */
  function AllJobs(r: Resource): seq<Job>
  {
    Projected(r.methods, r, "") + SubJobs(r, "", |r.resources|)
  }

  /** The resource generator as `handle` sets it up before any method is handled. */
  function InitialResource(api: Api, r: Resource): GeneratedResource
  {
    GeneratedResource(
      r.displayName, r.relativeUri,
      if r.description.Some? then Some(r.description.value + "\n") else None,
      if api.mediaTypes != [] then Some(api.mediaTypes) else None,
      [], [], [])
  }

  function HandleSpec<K(==)>(api: Api, build: Build, sig: (Method, seq<TypeDecl>, Option<TypeDecl>) -> K,
                         r: Resource): GeneratedResource
    requires ParentsWellTyped(api) && NamesAreIdentifiers(build)
  {
    RunJobs(InitialResource(api, r), api, build, sig, AllJobs(r))
  }

  // ---------------------------------------------------------------------------
  // Lemmas the imperative proofs use

  lemma {:induction false} RunJobsAppend<K>(g: GeneratedResource, api: Api, build: Build,
                                           sig: (Method, seq<TypeDecl>, Option<TypeDecl>) -> K, xs: seq<Job>, ys: seq<Job>)
    requires ParentsWellTyped(api) && NamesAreIdentifiers(build)
    ensures RunJobs(g, api, build, sig, xs + ys) == RunJobs(RunJobs(g, api, build, sig, xs), api, build, sig, ys)
  {
    if ys != [] {
      var n := |ys| - 1;
      PrefixSnoc(xs, ys, n);
      TakeAll(xs, ys);
      RunJobsAppend(g, api, build, sig, xs, ys[..n]);
      RunJobsSnoc(g, api, build, sig, xs + ys[..n], ys[n]);
      RunJobsSnoc(RunJobs(g, api, build, sig, xs), api, build, sig, ys[..n], ys[n]);
    } else {
      assert xs + ys == xs;
    }
  }

  lemma RunJobsSnoc<K>(g: GeneratedResource, api: Api, build: Build,
                       sig: (Method, seq<TypeDecl>, Option<TypeDecl>) -> K, jobs: seq<Job>, job: Job)
    requires ParentsWellTyped(api) && NamesAreIdentifiers(build)
    ensures RunJobs(g, api, build, sig, jobs + [job]) == HandleMethodSpec(RunJobs(g, api, build, sig, jobs), api, build, sig, job)
  {
    assert (jobs + [job])[..|jobs|] == jobs;
    assert RunLast(g, api, build, sig, jobs + [job]) == HandleLast(g, api, build, sig, jobs + [job]);
  }

  lemma BodyEntriesSnoc(code: string, bodies: seq<TypeDecl>, j: nat)
    requires j < |bodies|
    ensures BodyEntries(code, bodies[..j + 1])
            == BodyEntries(code, bodies[..j]) + [WithBody(code, bodies[j].name, bodies[j].declaredType)]
  {
    PrefixSnoc([], bodies, j);
  }

  lemma ResponseEntriesSnoc(rs: seq<Response>, i: nat)
    requires i < |rs|
    ensures ResponseEntries(rs[..i + 1]) == ResponseEntries(rs[..i]) + ResponseEntriesOf(rs[i])
  {
    PrefixSnoc([], rs, i);
  }

  lemma QueryParametersSnoc(build: Build, qs: seq<TypeDecl>, i: nat)
    requires i < |qs|
    ensures QueryParameters(build, qs[..i + 1])
            == QueryParameters(build, qs[..i]) + [QueryParameter(build, qs[i].name, qs[i].declaredType)]
  {
    PrefixSnoc([], qs, i);
  }

  lemma PathParametersSnoc(build: Build, ps: seq<TypeDecl>, i: nat)
    requires i < |ps|
    ensures PathParameters(build, ps[..i + 1])
            == PathParameters(build, ps[..i]) + [PathParameter(build, ps[i].name, ps[i].declaredType)]
  {
    PrefixSnoc([], ps, i);
  }

  lemma InternalTypesSnoc(api: Api, bodies: seq<TypeDecl>, typeName: string, i: nat)
    requires ParentsWellTyped(api) && i < |bodies|
    ensures InternalTypes(api, bodies[..i + 1], typeName)
            == InternalTypes(api, bodies[..i], typeName)
               + (if IsNewTypeDeclaration(api, bodies[i]) then [InternalType(bodies[i], typeName)] else [])
  {
    PrefixSnoc([], bodies, i);
  }

  lemma ReceiveAllSnoc<K>(build: Build, job: Job, vs: seq<Option<TypeDecl>>, ks: seq<K>, i: nat)
    requires |vs| == |ks| && i < |vs|
    ensures ReceiveAll(build, job, vs[..i + 1], ks[..i + 1])
            == Receive(ReceiveAll(build, job, vs[..i], ks[..i]), build, job, vs[i], ks[i])
  {
    PrefixSnoc([], vs, i);
    PrefixSnoc([], ks, i);
    assert ReceiveLast(build, job, vs[..i + 1], ks[..i + 1]) == ReceiveLastBody(build, job, vs[..i + 1], ks[..i + 1]);
  }

  /** At most one internal type per body. */
  lemma {:induction false} InternalTypesCount(api: Api, bodies: seq<TypeDecl>, typeName: string)
    requires ParentsWellTyped(api)
    ensures |InternalTypes(api, bodies, typeName)| <= |bodies|
  {
    if bodies != [] {
      InternalTypesCount(api, bodies[..|bodies| - 1], typeName);
    }
  }

  /** Each variant creates at most one builder, and the first always creates one. */
  lemma {:induction false} ReceiveAllCount<K>(build: Build, job: Job, vs: seq<Option<TypeDecl>>, ks: seq<K>)
    requires |vs| == |ks|
    ensures var r := ReceiveAll(build, job, vs, ks); |r.builders| <= |vs| && (vs != [] ==> 1 <= |r.builders|)
  {
    if vs != [] {
      var n := |vs| - 1;
      ReceiveAllCount(build, job, vs[..n], ks[..n]);
      ReceiveAllSnoc(build, job, vs, ks, n);
      assert vs[..n + 1] == vs && ks[..n + 1] == ks;
      var d := ReceiveAll(build, job, vs[..n], ks[..n]);
      if ks[n] in d.seen {
        assert d.seen[ks[n]] < |d.builders|;
      }
    }
  }
}

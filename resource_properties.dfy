/** What the resource handler promises, proved about the pure model in ResourceModel (and so,
    through the ensures of ResourceHandler's methods, about the imperative walk). */
module ResourceProperties {
  import opened Raml
  import opened JavaPoet
  import opened MethodDeclarations
  import opened Generators
  import opened ResourceModel
  import opened Seqs

  // ---------------------------------------------------------------------------
  // isNewTypeDeclaration and the internal type name

  /** The three-way novelty rule: a non-object body is never new; an object body is new
      unless it has exactly one parent, in which case it is new exactly when it declares
      more properties than that parent. */
  lemma NoveltyRule(api: Api, declaration: TypeDecl)
    requires SoleParentIsObject(api, declaration)
    ensures !declaration.shape.ObjectShape? ==> !IsNewTypeDeclaration(api, declaration)
    ensures declaration.shape.ObjectShape? && |api.parentTypes(declaration)| != 1
            ==> IsNewTypeDeclaration(api, declaration)
    ensures declaration.shape.ObjectShape? && |api.parentTypes(declaration)| == 1
            ==> (IsNewTypeDeclaration(api, declaration)
                 <==> |api.parentTypes(declaration)[0].shape.properties| < |declaration.shape.properties|)
  {
  }

  /** The internal type name is the method name with its first letter upper-cased: same
      length, same tail, a first character that is not a lower-case letter, and a name that
      already starts with one is left alone (so the operation is idempotent). */
  lemma TypeNameCapitalised(fullMethodName: string)
    requires |fullMethodName| > 0
    ensures var t := MethodAsTypeName(fullMethodName);
            && |t| == |fullMethodName| && t[1..] == fullMethodName[1..]
            && !('a' <= t[0] <= 'z')
            && ('a' <= fullMethodName[0] <= 'z' ==> t[0] as int == fullMethodName[0] as int - 32)
            && (!('a' <= fullMethodName[0] <= 'z') ==> t == fullMethodName)
            && MethodAsTypeName(t) == t
  {
    var t := MethodAsTypeName(fullMethodName);
    assert t[1..] == fullMethodName[1..];
    if !('a' <= fullMethodName[0] <= 'z') {
      assert t == [fullMethodName[0]] + fullMethodName[1..] == fullMethodName;
    }
    assert MethodAsTypeName(t) == [t[0]] + t[1..] == t;
  }

  /** handleMethod requests an internal type for exactly the novel request bodies, each under
      the capitalised method name: never more types than bodies, every requested type is a
      novel body of the method, and every novel body is requested. */
  lemma {:induction false} InternalTypesAreNovelBodies(api: Api, bodies: seq<TypeDecl>, typeName: string)
    requires ParentsWellTyped(api)
    ensures |InternalTypes(api, bodies, typeName)| <= |bodies|
    ensures forall t :: t in InternalTypes(api, bodies, typeName) ==>
              && t.name == typeName && t.declaration in bodies
              && SoleParentIsObject(api, t.declaration) && IsNewTypeDeclaration(api, t.declaration)
    ensures forall d :: d in bodies && SoleParentIsObject(api, d) && IsNewTypeDeclaration(api, d) ==>
              InternalType(d, typeName) in InternalTypes(api, bodies, typeName)
  {
    if bodies != [] {
      var n := |bodies| - 1;
      assert bodies == bodies[..n] + [bodies[n]];
      InternalTypesAreNovelBodies(api, bodies[..n], typeName);
    }
  }

  // ---------------------------------------------------------------------------
  // setupResponses

  /** One entry per body, each carrying the response code and that body's name and type. */
  lemma {:induction false} BodyEntriesPerBody(code: string, bodies: seq<TypeDecl>)
    ensures |BodyEntries(code, bodies)| == |bodies|
    ensures forall j :: 0 <= j < |bodies| ==>
              BodyEntries(code, bodies)[j] == WithBody(code, bodies[j].name, bodies[j].declaredType)
  {
    if bodies != [] {
      BodyEntriesPerBody(code, bodies[..|bodies| - 1]);
    }
  }

  /** The entries of the responses taken front to back: those of the first response, then
      those of the others, so responses keep their declaration order. */
  lemma {:induction false} ResponseEntriesInOrder(rs: seq<Response>)
    requires rs != []
    ensures ResponseEntries(rs) == ResponseEntriesOf(rs[0]) + ResponseEntries(rs[1..])
  {
    var n := |rs| - 1;
    if n == 0 {
      assert rs[1..] == [];
      assert rs[..n] == [];
    } else {
      ResponseEntriesInOrder(rs[..n]);
      assert rs[..n][1..] == rs[1..][..n - 1];
      assert rs[1..][n - 1] == rs[n];
      AppendAssoc(ResponseEntriesOf(rs[0]), ResponseEntries(rs[1..][..n - 1]), ResponseEntriesOf(rs[n]));
    }
  }

  /** The number of entries setupResponses records: max(1, |body|) per response. */
  function EntryCount(rs: seq<Response>): nat
  {
    if rs == [] then 0 else (if |rs[0].body| == 0 then 1 else |rs[0].body|) + EntryCount(rs[1..])
  }

  lemma {:induction false} ResponseEntryCount(rs: seq<Response>)
    ensures |ResponseEntries(rs)| == EntryCount(rs)
  {
    if rs != [] {
      ResponseEntriesInOrder(rs);
      ResponseEntryCount(rs[1..]);
      BodyEntriesPerBody(rs[0].code, rs[0].body);
    }
  }

  // ---------------------------------------------------------------------------
  // buildMethodReceivingType and the seenTypes map

  /** buildMethodReceivingType is called once with null for a body-less method, and once per
      body, in body order, otherwise. */
  lemma BodyVariantsShape(m: Method)
    ensures m.body == [] ==> BodyVariants(m) == [None]
    ensures m.body != [] ==> |BodyVariants(m)| == |m.body|
    ensures forall i :: 0 <= i < |m.body| ==> BodyVariants(m)[i] == Some(m.body[i])
  {
  }

  /** A signature already in seenTypes creates no builder and only appends the body's name to
      that builder's consumes, with no duplicate check; a null body changes nothing. */
  lemma RepeatedSignature<K>(d: Dedup<K>, build: Build, job: Job, body: Option<TypeDecl>, k: K)
    requires DedupValid(d) && k in d.seen
    ensures var r := Receive(d, build, job, body, k);
            var p := d.seen[k];
            && r.seen == d.seen && |r.builders| == |d.builders|
            && (forall q :: 0 <= q < |d.builders| && q != p ==> r.builders[q] == d.builders[q])
            && r.builders[p].spec == d.builders[p].spec
            && r.builders[p].consumes.Some? == (d.builders[p].consumes.Some? || body.Some?)
            && Consumed(r.builders[p].consumes)
               == Consumed(d.builders[p].consumes) + (if body.Some? then [body.value.name] else [])
  {
  }

  /** The distinct signatures are exactly the signatures, without repetition. */
  lemma {:induction false} DistinctElements<K>(ks: seq<K>)
    ensures forall k :: k in Distinct(ks) <==> k in ks
    ensures forall a, b :: 0 <= a < b < |Distinct(ks)| ==> Distinct(ks)[a] != Distinct(ks)[b]
  {
    if ks != [] {
      var n := |ks| - 1;
      assert ks == ks[..n] + [ks[n]];
      DistinctElements(ks[..n]);
    }
  }

  /** A sequence without repetition has as many elements as its set. */
  lemma {:induction false} SetOfDistinctSeq<K>(s: seq<K>)
    requires forall a, b :: 0 <= a < b < |s| ==> s[a] != s[b]
    ensures |set x | x in s| == |s|
  {
    if s != [] {
      var n := |s| - 1;
      assert s == s[..n] + [s[n]];
      SetOfDistinctSeq(s[..n]);
      assert s[n] !in s[..n];
      assert (set x | x in s) == (set x | x in s[..n]) + {s[n]};
    }
  }

  lemma {:induction false} ConsumesOfAbsent<K>(vs: seq<Option<TypeDecl>>, ks: seq<K>, k: K)
    requires |vs| == |ks| && k !in ks
    ensures ConsumesOf(vs, ks, k) == []
  {
    if vs != [] {
      var n := |vs| - 1;
      assert k !in ks[..n];
      ConsumesOfAbsent(vs[..n], ks[..n], k);
    }
  }

  /** `d` holds one builder per distinct signature, in order of first occurrence, each as the
      reference describes it, and maps each signature to its builder's index. */
  ghost predicate MatchesReference<K>(d: Dedup<K>, build: Build, job: Job, vs: seq<Option<TypeDecl>>, ks: seq<K>)
    requires |vs| == |ks|
  {
    var ds := Distinct(ks);
    && |d.builders| == |ds|
    && (forall j :: 0 <= j < |ds| ==> ds[j] in d.seen && d.seen[ds[j]] == j)
    && (forall j :: 0 <= j < |ds| ==> d.builders[j] == BuilderFor(build, job, vs, ks, ds[j]))
  }

  /** Receiving the last variant leaves the builder of any other signature met before it as
      the reference over the earlier variants describes it. */
  lemma BuilderForOther<K>(build: Build, job: Job, vs: seq<Option<TypeDecl>>, ks: seq<K>, x: K)
    requires |vs| == |ks| && vs != []
    requires x in ks[..|vs| - 1] && x != ks[|vs| - 1]
    ensures BuilderFor(build, job, vs, ks, x) == BuilderFor(build, job, vs[..|vs| - 1], ks[..|vs| - 1], x)
  {
    var n := |vs| - 1;
    assert FirstBody(vs, ks, x) == FirstBody(vs[..n], ks[..n], x);
    assert ConsumesOf(vs, ks, x) == ConsumesOf(vs[..n], ks[..n], x) + [];
    assert ConsumesOf(vs, ks, x) == ConsumesOf(vs[..n], ks[..n], x);
  }

  /** The builder of the last variant's signature, when it is met for the first time. */
  lemma BuilderForNew<K>(build: Build, job: Job, vs: seq<Option<TypeDecl>>, ks: seq<K>)
    requires |vs| == |ks| && vs != []
    requires ks[|vs| - 1] !in ks[..|vs| - 1]
    ensures var n := |vs| - 1;
            BuilderFor(build, job, vs, ks, ks[n]) == BuilderState(CreatedSpec(build, job, vs[n]), ConsumeBody(None, vs[n]))
  {
    var n := |vs| - 1;
    ConsumesOfAbsent(vs[..n], ks[..n], ks[n]);
    assert ConsumesOf(vs, ks, ks[n]) == (if vs[n].Some? then [vs[n].value.name] else []);
  }

  /** The builder of the last variant's signature, when it was met before: one more consume. */
  lemma BuilderForHit<K>(build: Build, job: Job, vs: seq<Option<TypeDecl>>, ks: seq<K>)
    requires |vs| == |ks| && vs != []
    requires ks[|vs| - 1] in ks[..|vs| - 1]
    ensures var n := |vs| - 1;
            var b := BuilderFor(build, job, vs[..n], ks[..n], ks[n]);
            BuilderFor(build, job, vs, ks, ks[n]) == b.(consumes := ConsumeBody(b.consumes, vs[n]))
  {
    var n := |vs| - 1;
    var before := ConsumesOf(vs[..n], ks[..n], ks[n]);
    var b := BuilderFor(build, job, vs[..n], ks[..n], ks[n]);
    assert FirstBody(vs, ks, ks[n]) == FirstBody(vs[..n], ks[..n], ks[n]);
    assert Consumed(b.consumes) == before;
    if vs[n].Some? {
      assert ConsumesOf(vs, ks, ks[n]) == before + [vs[n].value.name];
    } else {
      assert ConsumesOf(vs, ks, ks[n]) == before + [];
      assert ConsumesOf(vs, ks, ks[n]) == before;
    }
  }

  /** The step for a signature not seen before. */
  lemma ReceiveNewMatches<K>(build: Build, job: Job, vs: seq<Option<TypeDecl>>, ks: seq<K>, d: Dedup<K>)
    requires |vs| == |ks| && vs != []
    requires var n := |vs| - 1; MatchesReference(d, build, job, vs[..n], ks[..n])
    requires DedupValid(d) && forall k :: k in d.seen <==> k in ks[..|vs| - 1]
    requires ks[|vs| - 1] !in ks[..|vs| - 1]
    ensures MatchesReference(Receive(d, build, job, vs[|vs| - 1], ks[|vs| - 1]), build, job, vs, ks)
  {
    var n := |vs| - 1;
    var k := ks[n];
    DistinctElements(ks[..n]);
    var ds := Distinct(ks[..n]);
    assert Distinct(ks) == ds + [k];
    var r := Receive(d, build, job, vs[n], k);
    forall j | 0 <= j < |ds|
      ensures r.builders[j] == BuilderFor(build, job, vs, ks, ds[j])
    {
      BuilderForOther(build, job, vs, ks, ds[j]);
    }
    BuilderForNew(build, job, vs, ks);
  }

  /** The step for a signature seen before. */
  lemma ReceiveHitMatches<K>(build: Build, job: Job, vs: seq<Option<TypeDecl>>, ks: seq<K>, d: Dedup<K>)
    requires |vs| == |ks| && vs != []
    requires var n := |vs| - 1; MatchesReference(d, build, job, vs[..n], ks[..n])
    requires DedupValid(d) && forall k :: k in d.seen <==> k in ks[..|vs| - 1]
    requires ks[|vs| - 1] in ks[..|vs| - 1]
    ensures MatchesReference(Receive(d, build, job, vs[|vs| - 1], ks[|vs| - 1]), build, job, vs, ks)
  {
    var n := |vs| - 1;
    var k := ks[n];
    DistinctElements(ks[..n]);
    var ds := Distinct(ks[..n]);
    assert Distinct(ks) == ds;
    assert k in ds;
    var p :| 0 <= p < |ds| && ds[p] == k;
    var r := Receive(d, build, job, vs[n], k);
    forall j | 0 <= j < |ds|
      ensures r.builders[j] == BuilderFor(build, job, vs, ks, ds[j])
    {
      if j != p {
        BuilderForOther(build, job, vs, ks, ds[j]);
      } else {
        BuilderForHit(build, job, vs, ks);
      }
    }
  }

  /** The fold over the body variants agrees with the declarative reference: one builder per
      distinct signature, in order of first occurrence, created from the first body with that
      signature and consuming every body with that signature, in body order. */
  lemma {:induction false} ReceiveAllMatchesReference<K>(build: Build, job: Job, vs: seq<Option<TypeDecl>>, ks: seq<K>)
    requires |vs| == |ks|
    ensures MatchesReference(ReceiveAll(build, job, vs, ks), build, job, vs, ks)
    ensures ReceiveAll(build, job, vs, ks).builders == Reference(build, job, vs, ks)
  {
    if vs != [] {
      var n := |vs| - 1;
      ReceiveAllMatchesReference(build, job, vs[..n], ks[..n]);
      ReceiveAllSnoc(build, job, vs, ks, n);
      TakeAll([], vs);
      TakeAll([], ks);
      var d := ReceiveAll(build, job, vs[..n], ks[..n]);
      if ks[n] in ks[..n] {
        ReceiveHitMatches(build, job, vs, ks, d);
      } else {
        ReceiveNewMatches(build, job, vs, ks, d);
      }
    }
  }

  /** One handleMethod call creates as many method builders as its body variants have
      distinct signatures. */
  lemma BuilderCountIsDistinctSignatures<K>(build: Build, job: Job, vs: seq<Option<TypeDecl>>, ks: seq<K>)
    requires |vs| == |ks|
    ensures |ReceiveAll(build, job, vs, ks).builders| == |set k | k in ks|
  {
    ReceiveAllMatchesReference(build, job, vs, ks);
    DistinctElements(ks);
    SetOfDistinctSeq(Distinct(ks));
    assert (set k | k in Distinct(ks)) == (set k | k in ks);
  }

  lemma {:induction false} ConsumesOfContains<K>(vs: seq<Option<TypeDecl>>, ks: seq<K>, i: nat)
    requires |vs| == |ks| && i < |vs| && vs[i].Some?
    ensures vs[i].value.name in ConsumesOf(vs, ks, ks[i])
  {
    var n := |vs| - 1;
    if i < n {
      ConsumesOfContains(vs[..n], ks[..n], i);
    }
  }

  /** Every request body ends up in the @Consumes list of the builder its signature selects. */
  lemma EveryBodyConsumed<K>(build: Build, job: Job, vs: seq<Option<TypeDecl>>, ks: seq<K>, i: nat)
    requires |vs| == |ks| && i < |vs| && vs[i].Some?
    ensures var d := ReceiveAll(build, job, vs, ks);
            && ks[i] in d.seen
            && d.builders[d.seen[ks[i]]].consumes.Some?
            && vs[i].value.name in d.builders[d.seen[ks[i]]].consumes.value
  {
    ReceiveAllMatchesReference(build, job, vs, ks);
    DistinctElements(ks);
    assert ks[i] in ks;
    assert ks[i] in Distinct(ks);
    var j :| 0 <= j < |Distinct(ks)| && Distinct(ks)[j] == ks[i];
    ConsumesOfContains(vs, ks, i);
    var d := ReceiveAll(build, job, vs, ks);
    var names := ConsumesOf(vs, ks, ks[i]);
    assert d.seen[ks[i]] == j;
    assert d.builders[j] == BuilderFor(build, job, vs, ks, ks[i]);
    assert names != [];
    assert d.builders[j].consumes == Some(names);
  }

  /** The query parameters of a created method: one per declaration, in declaration order. */
  lemma {:induction false} QueryParametersInOrder(build: Build, qs: seq<TypeDecl>)
    ensures forall j :: 0 <= j < |qs| ==> QueryParameters(build, qs)[j] == QueryParameter(build, qs[j].name, qs[j].declaredType)
  {
    if qs != [] {
      QueryParametersInOrder(build, qs[..|qs| - 1]);
    }
  }

  /** The path parameters of a created method: one per URI parameter, in declaration order. */
  lemma {:induction false} PathParametersInOrder(build: Build, ps: seq<TypeDecl>)
    ensures forall j :: 0 <= j < |ps| ==> PathParameters(build, ps)[j] == PathParameter(build, ps[j].name, ps[j].declaredType)
  {
    if ps != [] {
      PathParametersInOrder(build, ps[..|ps| - 1]);
    }
  }

  /** A @Path annotation is added exactly when the path is not empty, right after the HTTP
      method annotation, and nothing else is annotated on the method itself. */
  lemma PathAnnotationIffNonEmptyPath(build: Build, job: Job, body: Option<TypeDecl>)
    ensures (exists i :: 0 <= i < |CreatedSpec(build, job, body).annotations|
                         && CreatedSpec(build, job, body).annotations[i].Path?)
            <==> job.path != ""
    ensures job.path != "" ==> CreatedSpec(build, job, body).annotations == [HttpMethod(job.m.verb), Path(job.path)]
    ensures job.path == "" ==> CreatedSpec(build, job, body).annotations == [HttpMethod(job.m.verb)]
  {
    if job.path != "" {
      assert CreatedSpec(build, job, body).annotations[1].Path?;
    }
  }

  // ---------------------------------------------------------------------------
  // handleMethod and the walk

  /** The response class one handleMethod call builds. */
  function ResponseClassOf(build: Build, job: Job): ResponseClass
  {
    ResponseClass(job.m.verb, MethodNameSuffix(build, job), ResponseName(build, job), ResponseEntries(job.m.responses))
  }

  /** The number of method builders one handleMethod call creates. */
  function SignatureCount<K(==)>(sig: (Method, seq<TypeDecl>, Option<TypeDecl>) -> K, job: Job): nat
  {
    |set k | k in Signatures(sig, job, BodyVariants(job.m))|
  }

  function TotalBuilders<K(==)>(sig: (Method, seq<TypeDecl>, Option<TypeDecl>) -> K, jobs: seq<Job>): nat
  {
    if jobs == [] then 0 else SignatureCount(sig, jobs[0]) + TotalBuilders(sig, jobs[1..])
  }

  lemma {:induction false} TotalBuildersSnoc<K>(sig: (Method, seq<TypeDecl>, Option<TypeDecl>) -> K,
                                                 jobs: seq<Job>, job: Job)
    ensures TotalBuilders(sig, jobs + [job]) == TotalBuilders(sig, jobs) + SignatureCount(sig, job)
  {
    if jobs != [] {
      assert (jobs + [job])[1..] == jobs[1..] + [job];
      TotalBuildersSnoc(sig, jobs[1..], job);
    }
  }

  /** One handleMethod call appends one response class, the builders of the reference, and
      the internal types of its novel bodies, and keeps everything else. */
  lemma HandleMethodRecords<K>(g: GeneratedResource, api: Api, build: Build,
                                   sig: (Method, seq<TypeDecl>, Option<TypeDecl>) -> K, job: Job)
    requires ParentsWellTyped(api) && NamesAreIdentifiers(build)
    ensures var h := HandleMethodSpec(g, api, build, sig, job);
            var vs := BodyVariants(job.m);
            && h.name == g.name && h.uri == g.uri
            && h.documentation == g.documentation && h.mediaTypes == g.mediaTypes
            && h.responseClasses == g.responseClasses + [ResponseClassOf(build, job)]
            && h.methods == g.methods + Reference(build, job, vs, Signatures(sig, job, vs))
            && |h.methods| == |g.methods| + SignatureCount(sig, job)
  {
    var vs := BodyVariants(job.m);
    ReceiveAllMatchesReference(build, job, vs, Signatures(sig, job, vs));
    BuilderCountIsDistinctSignatures(build, job, vs, Signatures(sig, job, vs));
  }

  /** handleMethod calls in sequence: the name, URI, documentation and media types are never
      touched; each call appends exactly one response class, in call order; and the method
      builders grow by one per distinct signature of each call. */
  lemma {:induction false} RunJobsRecords<K>(g: GeneratedResource, api: Api, build: Build,
                                              sig: (Method, seq<TypeDecl>, Option<TypeDecl>) -> K, jobs: seq<Job>)
    requires ParentsWellTyped(api) && NamesAreIdentifiers(build)
    ensures var r := RunJobs(g, api, build, sig, jobs);
            && r.name == g.name && r.uri == g.uri
            && r.documentation == g.documentation && r.mediaTypes == g.mediaTypes
            && |r.responseClasses| == |g.responseClasses| + |jobs|
            && r.responseClasses[..|g.responseClasses|] == g.responseClasses
            && (forall q :: 0 <= q < |jobs| ==> r.responseClasses[|g.responseClasses| + q] == ResponseClassOf(build, jobs[q]))
            && |r.methods| == |g.methods| + TotalBuilders(sig, jobs)
            && r.methods[..|g.methods|] == g.methods
  {
    if jobs != [] {
      var n := |jobs| - 1;
      assert jobs == jobs[..n] + [jobs[n]];
      RunJobsRecords(g, api, build, sig, jobs[..n]);
      RunJobsSnoc(g, api, build, sig, jobs[..n], jobs[n]);
      var before := RunJobs(g, api, build, sig, jobs[..n]);
      HandleMethodRecords(before, api, build, sig, jobs[n]);
      TotalBuildersSnoc(sig, jobs[..n], jobs[n]);
      var r := RunJobs(g, api, build, sig, jobs);
      assert r.responseClasses == before.responseClasses + [ResponseClassOf(build, jobs[n])];
    }
  }

  /** handle(api, resource): the generator carries the resource's name and URI, the
      description followed by a newline as documentation, the API's media types only when
      there are some, one response class per handleMethod call and one method builder per
      distinct signature of each call. */
  lemma HandleRecords<K>(api: Api, build: Build, sig: (Method, seq<TypeDecl>, Option<TypeDecl>) -> K, r: Resource)
    requires ParentsWellTyped(api) && NamesAreIdentifiers(build)
    ensures var h := HandleSpec(api, build, sig, r);
            && h.name == r.displayName && h.uri == r.relativeUri
            && h.documentation == (if r.description.Some? then Some(r.description.value + "\n") else None)
            && (h.mediaTypes.Some? <==> api.mediaTypes != [])
            && (h.mediaTypes.Some? ==> h.mediaTypes.value == api.mediaTypes)
            && |h.responseClasses| == |AllJobs(r)|
            && (forall q :: 0 <= q < |AllJobs(r)| ==> h.responseClasses[q] == ResponseClassOf(build, AllJobs(r)[q]))
            && |h.methods| == TotalBuilders(sig, AllJobs(r))
  {
    RunJobsRecords(InitialResource(api, r), api, build, sig, AllJobs(r));
  }

  /** The resource's own methods are handled first, against the resource itself and with
      the empty path, so none of them gets a @Path annotation. */
  lemma TopLevelMethodsHaveEmptyPath(r: Resource)
    ensures |AllJobs(r)| >= |r.methods|
    ensures forall q :: 0 <= q < |r.methods| ==> AllJobs(r)[q] == Job(r, r.methods[q], "")
  {
  }

  /** Every call handleSubResources(r, prefix) makes uses a path that starts with prefix. */
  lemma {:induction false} SubJobsExtendPrefix(r: Resource, prefix: string, n: nat)
    requires n <= |r.resources|
    decreases r, n
    ensures forall job :: job in SubJobs(r, prefix, n) ==> prefix <= job.path
  {
    if n > 0 {
      SubJobsExtendPrefix(r, prefix, n - 1);
      var child := r.resources[n - 1];
      var path := prefix + child.relativeUri;
      SubJobsExtendPrefix(child, path, |child.resources|);
      forall job | job in ChildJobs(r, prefix, n - 1)
        ensures prefix <= job.path
      {
        assert path <= job.path;
        assert job.path[..|prefix|] == path[..|prefix|] == prefix;
      }
    }
  }

  /** The prefix is carried unchanged down the recursion: walking from a prefix a + b gives
      the calls of walking from b, with a put in front of every path. */
  lemma {:induction false} SubJobsShiftPrefix(r: Resource, a: string, b: string, n: nat)
    requires n <= |r.resources|
    decreases r, n
    ensures |SubJobs(r, a + b, n)| == |SubJobs(r, b, n)|
    ensures forall q :: 0 <= q < |SubJobs(r, b, n)| ==>
              SubJobs(r, a + b, n)[q] == SubJobs(r, b, n)[q].(path := a + SubJobs(r, b, n)[q].path)
  {
    if n > 0 {
      SubJobsShiftPrefix(r, a, b, n - 1);
      var child := r.resources[n - 1];
      assert a + b + child.relativeUri == a + (b + child.relativeUri);
      SubJobsShiftPrefix(child, a, b + child.relativeUri, |child.resources|);
      var xs := ChildJobs(r, a + b, n - 1);
      var ys := ChildJobs(r, b, n - 1);
      assert |xs| == |ys|;
      assert forall q :: 0 <= q < |ys| ==> xs[q] == ys[q].(path := a + ys[q].path);
    }
  }
}

# The RAML 1.0 resource handler of raml-for-jax-rs, in Dafny

This project models the resource-to-interface compiler of raml-to-jaxrs. `ResourceHandler`
walks one top-level RAML resource and drives three builders:

- the resource generator of that resource;
- one response class builder per HTTP method;
- the `MethodDeclaration` builders. Each one becomes an abstract JAX-RS method of the generated interface.

The model has one module per concern:

- `Raml` (`raml.dfy`): the parsed resource tree the handler reads. It is immutable values: resources, methods, type declarations, responses, and the API root with its media types and parent-type lookup.
- `JavaPoet` (`javapoet.dfy`): the JavaPoet values built. A method spec is a record of name, modifiers, return type, annotations and parameters. The type spec is a class that methods are appended to.
- `MethodDeclarations` (`method_declaration.dfy`): the `MethodDeclaration` class.
  - Its fields are the method spec under construction and the lazily created `@Consumes` accumulator (`None` models `null`).
  - Each `add*` method and `Output` is proved to change exactly what the Java code changes.
  - `Apply`/`ApplyAll` describe the same calls on values.
- `Generators` (`generators.dfy`): the resource generator and the response class builder. They record the calls they receive.
- `ResourceModel` (`resource_model.dfy`): what `handle` records, as pure functions. It has two descriptions of the seenTypes deduplication:
  - a fold (`ReceiveAll`) that mirrors the code;
  - a declarative reference (`Reference`): one builder per distinct signature.
- `ResourceHandler` (`resource_handler.dfy`): the handler as imperative methods, with the same loops, branches and recursion as the Java code. Each one is proved to leave the generator in the state the pure model describes.
  - `Handle` ends in `creator.Model() == HandleSpec(api, build, sig, resource)`.
  - The loop over request bodies and the first branch of `buildMethodReceivingType` are separate methods (`ReceiveBodies`, `ReceiveRequestTypes`, `ReceiveRequestType`, `ReceiveVariant`, `CreateMethodBuilder`). So are one pass of `handleSubResources` (`HandleSubResource`) and the method loops of `handle` and `handleSubResources` (`HandleMethods`). Together they run the statements of the cited Java lines in the same order.
- `ResourceProperties` (`resource_properties.dfy`) and `MethodDeclarationProperties` (`method_declaration_properties.dfy`): lemmas about the pure model. Through the postconditions above, they hold for the imperative code too.

The collaborators the handler calls are not part of this model. They are function-typed parameters:

- `MethodSignature.signature` is `sig`, into any type `K` with equality.
- `Names.methodName`, `Names.methodNameSuffix`, `Names.buildVariableName`, `CurrentBuild.javaTypeName` and the naming of response classes are the fields of `Build`.
- `ModelFixer.parentTypes` over `api.types()` is `Api.parentTypes`.

Behaviour of the code worth knowing, all of it modelled as written:

- There is one resource generator per top-level resource. Sub-resources add their methods to it and get no generator of their own.
- `handleSubResources` projects the methods of the resource it is given onto each direct child. A resource's own methods are therefore handled at its own path only for the top-level resource. The methods of a grandparent are not projected onto grandchildren.
- The path parameters of a projected method are the URI parameters of the child only, not those of every ancestor.
- The `seenTypes` map is created afresh for every `handleMethod` call. So deduplication happens only among the request bodies of one method.
- `isNewTypeDeclaration` is asked for every request body, before the signature is looked up.
- Consume entries are appended with no duplicate check.
- There is no detection of name collisions.

## Model

| member | source | states |
|---|---|---|
| ResourceHandler.Handle | raml-to-jaxrs/jaxrs-code-generator/src/main/java/org/raml/jaxrs/generator/v10/ResourceHandler.java:43-66 | The returned generator is fresh. Its recorded state is `HandleSpec`: the initial resource (name, URI, description plus "\n", media types only if the API has some) after every handleMethod call of the walk, top-level methods first. |
| ResourceHandler.HandleMethods | raml-to-jaxrs/jaxrs-code-generator/src/main/java/org/raml/jaxrs/generator/v10/ResourceHandler.java:61-63 | Handling a list of methods against one target at one path leaves the generator as the calls `Projected(methods, target, path)` do, one after the other. |
| ResourceHandler.HandleSubResources | raml-to-jaxrs/jaxrs-code-generator/src/main/java/org/raml/jaxrs/generator/v10/ResourceHandler.java:68-78 | The generator ends as `SubJobs(resource, prefix, n)` prescribes: for each child in order, the parent's methods at prefix + child URI, then the child's own sub-walk. |
| ResourceHandler.HandleSubResource | raml-to-jaxrs/jaxrs-code-generator/src/main/java/org/raml/jaxrs/generator/v10/ResourceHandler.java:70-77 | One pass of the loop runs exactly the calls of `ChildJobs`: the parent's methods projected onto child i, then the recursion with the extended prefix. |
| ResourceHandler.HandleMethod | raml-to-jaxrs/jaxrs-code-generator/src/main/java/org/raml/jaxrs/generator/v10/ResourceHandler.java:80-113 | One call changes the generator exactly as `HandleMethodSpec` says. It appends one response class, the internal types of the novel bodies and the deduplicated method builders. Nothing else changes. |
| ResourceHandler.ReceiveBodies | raml-to-jaxrs/jaxrs-code-generator/src/main/java/org/raml/jaxrs/generator/v10/ResourceHandler.java:93-112 | A body-less method is received once with no body; otherwise every body is received in order. The new builders, in creation order, are in the states of the fold `ReceiveAll`, and the internal types grow by `InternalTypes`. |
| ResourceHandler.ReceiveRequestTypes | raml-to-jaxrs/jaxrs-code-generator/src/main/java/org/raml/jaxrs/generator/v10/ResourceHandler.java:97-111 | The loop over a non-empty body list. The seenTypes map and the new builders simulate `ReceiveAll` over the bodies received so far, and the internal types requested are those of the novel bodies so far. |
| ResourceHandler.ReceiveRequestType | raml-to-jaxrs/jaxrs-code-generator/src/main/java/org/raml/jaxrs/generator/v10/ResourceHandler.java:98-110 | One body: an internal type named by the capitalised method name is requested iff the body is new, then the body is received. The simulation of the fold extends by one variant. A new builder appears iff the signature was not met before. |
| ResourceHandler.ReceiveVariant | raml-to-jaxrs/jaxrs-code-generator/src/main/java/org/raml/jaxrs/generator/v10/ResourceHandler.java:108-110 | One call of buildMethodReceivingType seen through the fold. The builders and seenTypes simulate `ReceiveAll` over one more variant, and only the builder the signature selects changes. |
| ResourceHandler.BuildMethodReceivingType | raml-to-jaxrs/jaxrs-code-generator/src/main/java/org/raml/jaxrs/generator/v10/ResourceHandler.java:141-178 | For an unseen signature, one fresh builder is appended in the state `CreatedSpec` with the body's consume entry, and seenTypes maps the signature to it. For a seen one, no builder is created and the existing builder only gains the body's consume entry (nothing for null). |
| ResourceHandler.CreateMethodBuilder | raml-to-jaxrs/jaxrs-code-generator/src/main/java/org/raml/jaxrs/generator/v10/ResourceHandler.java:147-166 | The new builder has the query parameters, then the resource's URI parameters, then `@Path` iff the path is non-empty, then for a body the entity parameter and one consume entry. |
| ResourceHandler.SetupResponses | raml-to-jaxrs/jaxrs-code-generator/src/main/java/org/raml/jaxrs/generator/v10/ResourceHandler.java:180-192 | The response builder's entries grow by `ResponseEntries(m.responses)`: a status-only entry per body-less response, one (code, name, type) entry per body otherwise, in declaration order. |
| ResourceModel.IsNewTypeDeclaration | raml-to-jaxrs/jaxrs-code-generator/src/main/java/org/raml/jaxrs/generator/v10/ResourceHandler.java:115-128 | Only an object type can be new. An object type without parents always is. One whose single parent declares at least as many properties never is. |
| ResourceModel.ToUpperCase | raml-to-jaxrs/jaxrs-code-generator/src/main/java/org/raml/jaxrs/generator/v10/ResourceHandler.java:102 | The result is never a lower-case letter. A lower-case letter maps to the upper-case letter at the same alphabet position, and any other character is kept. |
| ResourceModel.MethodAsTypeName | raml-to-jaxrs/jaxrs-code-generator/src/main/java/org/raml/jaxrs/generator/v10/ResourceHandler.java:102 | The type name has the method name's length and tail, and its first character is not a lower-case letter. A name that already starts with something other than a lower-case letter is kept unchanged. |
| ResourceModel.BodyEntries | raml-to-jaxrs/jaxrs-code-generator/src/main/java/org/raml/jaxrs/generator/v10/ResourceHandler.java:187-189 | One entry per body, each carrying the response's code. |
| ResourceModel.ResponseEntriesOf | raml-to-jaxrs/jaxrs-code-generator/src/main/java/org/raml/jaxrs/generator/v10/ResourceHandler.java:184-190 | At least one entry, and at least one per body, each carrying the response's code. |
| ResourceModel.ResponseEntries | raml-to-jaxrs/jaxrs-code-generator/src/main/java/org/raml/jaxrs/generator/v10/ResourceHandler.java:180-192 | At least one entry per declared response, and every entry carries the code of a declared response. |
| ResourceModel.QueryParameters | raml-to-jaxrs/jaxrs-code-generator/src/main/java/org/raml/jaxrs/generator/v10/ResourceHandler.java:151-153 | One parameter per query parameter declared. |
| ResourceModel.PathParameters | raml-to-jaxrs/jaxrs-code-generator/src/main/java/org/raml/jaxrs/generator/v10/ResourceHandler.java:155-157 | One parameter per URI parameter of the target resource. |
| ResourceModel.CreatedSpec | raml-to-jaxrs/jaxrs-code-generator/src/main/java/org/raml/jaxrs/generator/v10/ResourceHandler.java:147-166 | A created method is abstract and public and returns the response class. It is annotated with its HTTP method, plus one more annotation iff the path is non-empty. It has one parameter per query parameter and per URI parameter, plus, for a body, a last parameter named "entity" of the body's Java type. |
| ResourceModel.HandleMethodSpec | raml-to-jaxrs/jaxrs-code-generator/src/main/java/org/raml/jaxrs/generator/v10/ResourceHandler.java:80-113 | One handleMethod call keeps name, URI, documentation and media types. It appends exactly one response class, for the method's verb with the entries of its responses. It appends at most one internal type per body, and at least one and at most one method per body variant, keeping everything recorded before. |
| ResourceModel.SubJobs | raml-to-jaxrs/jaxrs-code-generator/src/main/java/org/raml/jaxrs/generator/v10/ResourceHandler.java:68-78 | handleSubResources over the first n children makes at least n times as many handleMethod calls as the parent has methods: each child gets all of them. |
| ResourceModel.ChildJobs | raml-to-jaxrs/jaxrs-code-generator/src/main/java/org/raml/jaxrs/generator/v10/ResourceHandler.java:70-77 | One pass starts with every method of the parent, in order, handled against child i (whose URI parameters then become the path parameters) at prefix + the child's relative URI. |
| ResourceModel.Receive | raml-to-jaxrs/jaxrs-code-generator/src/main/java/org/raml/jaxrs/generator/v10/ResourceHandler.java:145-177 | One call on the seenTypes map keeps every index in range and adds the signature to its keys. |
| ResourceModel.ReceiveAll | raml-to-jaxrs/jaxrs-code-generator/src/main/java/org/raml/jaxrs/generator/v10/ResourceHandler.java:88-111 | The fold from an empty seenTypes map: its keys are exactly the signatures met, each mapping to an existing builder. |
| ResourceProperties.NoveltyRule | raml-to-jaxrs/jaxrs-code-generator/src/main/java/org/raml/jaxrs/generator/v10/ResourceHandler.java:115-128 | A non-object body is never new. An object body with a parent count other than one is new. With exactly one parent, it is new iff the parent has strictly fewer properties. |
| ResourceProperties.TypeNameCapitalised | raml-to-jaxrs/jaxrs-code-generator/src/main/java/org/raml/jaxrs/generator/v10/ResourceHandler.java:102 | The internal type name has the method name's length and tail. Its first character is upper-cased (code minus 32 for a-z) and otherwise kept. Capitalising again changes nothing. |
| ResourceProperties.InternalTypesAreNovelBodies | raml-to-jaxrs/jaxrs-code-generator/src/main/java/org/raml/jaxrs/generator/v10/ResourceHandler.java:98-107 | Internal types are requested for exactly the novel bodies, each under the capitalised method name, and never more than there are bodies. |
| ResourceProperties.BodyEntriesPerBody | raml-to-jaxrs/jaxrs-code-generator/src/main/java/org/raml/jaxrs/generator/v10/ResourceHandler.java:187-189 | A response with bodies gives one entry per body, the j-th carrying the code and the j-th body's name and type. |
| ResourceProperties.ResponseEntriesInOrder | raml-to-jaxrs/jaxrs-code-generator/src/main/java/org/raml/jaxrs/generator/v10/ResourceHandler.java:182-191 | The entries are those of the first response followed by those of the rest: declaration order. |
| ResourceProperties.ResponseEntryCount | raml-to-jaxrs/jaxrs-code-generator/src/main/java/org/raml/jaxrs/generator/v10/ResourceHandler.java:180-192 | The number of entries is the sum over responses of max(1, number of bodies). |
| ResourceProperties.BodyVariantsShape | raml-to-jaxrs/jaxrs-code-generator/src/main/java/org/raml/jaxrs/generator/v10/ResourceHandler.java:93-111 | A body-less method gives exactly one call, with null. Otherwise there is one call per body, in body order. |
| ResourceProperties.RepeatedSignature | raml-to-jaxrs/jaxrs-code-generator/src/main/java/org/raml/jaxrs/generator/v10/ResourceHandler.java:171-177 | A repeated signature creates no builder and changes no other builder. The selected builder keeps its method and only appends the body's name to its consumes, with no duplicate check; null appends nothing. |
| ResourceProperties.ReceiveAllMatchesReference | raml-to-jaxrs/jaxrs-code-generator/src/main/java/org/raml/jaxrs/generator/v10/ResourceHandler.java:141-178 | The fold equals the reference: one builder per distinct signature, in first-occurrence order, created from the first body with that signature, consuming every body with it in body order. seenTypes maps the j-th distinct signature to the j-th builder. |
| ResourceProperties.BuilderCountIsDistinctSignatures | raml-to-jaxrs/jaxrs-code-generator/src/main/java/org/raml/jaxrs/generator/v10/ResourceHandler.java:145-168 | One handleMethod call creates as many builders as its body variants have distinct signatures. |
| ResourceProperties.EveryBodyConsumed | raml-to-jaxrs/jaxrs-code-generator/src/main/java/org/raml/jaxrs/generator/v10/ResourceHandler.java:163-176 | Every request body's name is in the consume list of the builder its signature selects. |
| ResourceProperties.QueryParametersInOrder | raml-to-jaxrs/jaxrs-code-generator/src/main/java/org/raml/jaxrs/generator/v10/ResourceHandler.java:151-153 | The j-th query parameter is built from the j-th query declaration: its variable name, its Java type and `@QueryParam`. |
| ResourceProperties.PathParametersInOrder | raml-to-jaxrs/jaxrs-code-generator/src/main/java/org/raml/jaxrs/generator/v10/ResourceHandler.java:155-157 | The j-th path parameter is built from the j-th URI parameter of the target resource, with `@PathParam`. |
| ResourceProperties.PathAnnotationIffNonEmptyPath | raml-to-jaxrs/jaxrs-code-generator/src/main/java/org/raml/jaxrs/generator/v10/ResourceHandler.java:159-161 | A created method carries a `@Path` annotation iff the path is non-empty. Its annotations are then the HTTP method and `@Path(path)`; otherwise the HTTP method alone. |
| ResourceProperties.HandleMethodRecords | raml-to-jaxrs/jaxrs-code-generator/src/main/java/org/raml/jaxrs/generator/v10/ResourceHandler.java:80-113 | One call keeps name, URI, documentation and media types. It appends exactly one response class and the reference builders, one per distinct signature. |
| ResourceProperties.RunJobsRecords | raml-to-jaxrs/jaxrs-code-generator/src/main/java/org/raml/jaxrs/generator/v10/ResourceHandler.java:61-76 | handleMethod calls in sequence never touch name, URI, documentation or media types. Each call appends one response class in call order. The builders grow by the distinct-signature count of every call. |
| ResourceProperties.HandleRecords | raml-to-jaxrs/jaxrs-code-generator/src/main/java/org/raml/jaxrs/generator/v10/ResourceHandler.java:43-66 | The generator has the resource's name and URI, documentation = description + "\n" (none without a description), and media types iff the API declares some. It has one response class per handleMethod call, in order, and the total distinct-signature count of builders. |
| ResourceProperties.TopLevelMethodsHaveEmptyPath | raml-to-jaxrs/jaxrs-code-generator/src/main/java/org/raml/jaxrs/generator/v10/ResourceHandler.java:61-63 | The top-level resource's own methods are handled first, in order, against the resource itself and with the empty path. By PathAnnotationIffNonEmptyPath, they get no `@Path`. |
| ResourceProperties.SubJobsExtendPrefix | raml-to-jaxrs/jaxrs-code-generator/src/main/java/org/raml/jaxrs/generator/v10/ResourceHandler.java:68-78 | Every call made by handleSubResources(r, prefix) uses a path that starts with prefix. |
| ResourceProperties.SubJobsShiftPrefix | raml-to-jaxrs/jaxrs-code-generator/src/main/java/org/raml/jaxrs/generator/v10/ResourceHandler.java:73-76 | The recursion carries the concatenated prefix. Walking from prefix a + b makes the calls of walking from b, with a put in front of each path. |
| MethodDeclarations.Finished | raml-to-jaxrs/jaxrs-code-generator/src/main/java/org/raml/jaxrs/generator/builders/resources/MethodDeclaration.java:98-102 | The finished method keeps name and parameters. It gets `@Consumes` appended last iff the accumulator exists, and is unchanged otherwise. |
| MethodDeclarations.MethodDeclaration.constructor | raml-to-jaxrs/jaxrs-code-generator/src/main/java/org/raml/jaxrs/generator/builders/resources/MethodDeclaration.java:35-42 | A new builder is abstract and public, returns returnClass, carries only the HTTP-method annotation and no parameters, and has no consumes accumulator. |
| MethodDeclarations.MethodDeclaration.AddQueryParameter | raml-to-jaxrs/jaxrs-code-generator/src/main/java/org/raml/jaxrs/generator/builders/resources/MethodDeclaration.java:44-49 | Appends one parameter: the derived variable name, the resolved type and a single `@QueryParam(name)`. Nothing else changes; returns the same builder. |
| MethodDeclarations.MethodDeclaration.AddEntityParameter | raml-to-jaxrs/jaxrs-code-generator/src/main/java/org/raml/jaxrs/generator/builders/resources/MethodDeclaration.java:51-56 | Appends one parameter under the given name with the resolved type and no annotation. Returns the same builder. |
| MethodDeclarations.MethodDeclaration.AddPathParameter | raml-to-jaxrs/jaxrs-code-generator/src/main/java/org/raml/jaxrs/generator/builders/resources/MethodDeclaration.java:58-65 | Appends one parameter: the derived variable name, the resolved type and a single `@PathParam(name)`. Returns the same builder. |
| MethodDeclarations.MethodDeclaration.AddConsumeAnnotation | raml-to-jaxrs/jaxrs-code-generator/src/main/java/org/raml/jaxrs/generator/builders/resources/MethodDeclaration.java:79-89 | Creates the accumulator if absent, then appends exactly one media type, keeping order and duplicates. The method spec is unchanged; returns the same builder. |
| MethodDeclarations.MethodDeclaration.AddPathAnnotation | raml-to-jaxrs/jaxrs-code-generator/src/main/java/org/raml/jaxrs/generator/builders/resources/MethodDeclaration.java:91-95 | Appends one `@Path(path)` annotation and leaves the rest unchanged. Returns the same builder. |
| MethodDeclarations.MethodDeclaration.Output | raml-to-jaxrs/jaxrs-code-generator/src/main/java/org/raml/jaxrs/generator/builders/resources/MethodDeclaration.java:97-103 | The method spec becomes `Finished` of the state before, and the type spec gains exactly that method, once, at the end. |
| MethodDeclarationProperties.CallsAccumulate | raml-to-jaxrs/jaxrs-code-generator/src/main/java/org/raml/jaxrs/generator/builders/resources/MethodDeclaration.java:44-95 | After any sequence of calls, name, modifiers and return type are kept, and parameters and `@Path` annotations are appended in call order. The accumulator is untouched without a consume call; otherwise it holds the earlier values followed by every media type given. |
| MethodDeclarationProperties.ConsumesAttachedIffConsumeCalled | raml-to-jaxrs/jaxrs-code-generator/src/main/java/org/raml/jaxrs/generator/builders/resources/MethodDeclaration.java:79-103 | For a freshly constructed builder and any calls, the output has a `@Consumes` annotation iff addConsumeAnnotation was called. It then comes last and lists the media types in call order, after the HTTP method and the `@Path` annotations. |

## Left out

- ResourceModel.ToUpperCase: only the ASCII letters a-z are upper-cased. Java's `Character.toUpperCase` also maps other Unicode letters; there is no Unicode case table here.
- `isNewTypeDeclaration` casts the sole parent to `ObjectTypeDeclaration`, which throws `ClassCastException` if the parent is not an object type. That case is excluded by the precondition `ParentsWellTyped` rather than modelled.
- `charAt(0)` on an empty method name throws. That case is excluded by the precondition `NamesAreIdentifiers` on `Names.methodName`.
- The null-description case is modelled with `Option`. A null media-type list on the API root is not modelled.
- Collaborators are uninterpreted parameters, so nothing is proved about their results:
  - `MethodSignature.signature` and its equality;
  - `Names.methodName`, `Names.methodNameSuffix` and `Names.buildVariableName`;
  - `CurrentBuild.javaTypeName`;
  - `HTTPMethods.methodNameToAnnotation`, modelled as an annotation carrying the verb;
  - `ModelFixer.parentTypes`;
  - the response class name.
- `TypeHandler.handle` is recorded as a request (body, type name) for an internal type. The type generator it builds is not modelled.
- `createResource`, `createMethod` and `createResponseClassBuilder` are modelled as recorders of the calls they receive. Their own code is not part of this model.
- `handle` registers the resource generator with the build. Here `Handle` returns it instead.
- JavaPoet and the rendering of Java source text are not modelled. Method specs, parameters and annotations are plain records, and the `@Consumes` accumulator is the list of its values.
- `output` is never called by the resource handler; it runs when the build writes the interface. It is modelled and proved separately.
- jaxrs-to-raml/raml-emitter/src/main/java/org/raml/emitter/plugins/RamlToPojoTypeHandler.java is not part of this model. It is a reflection wrapper over code that is not available.
- Sub-resource depth and name collisions: the Java code checks neither, and neither does the model.

# Endpoint generation for the GitHub API client, in Dafny

This project models the decision logic of `EndpointGenerator`, the code generator
that turns the operations of GitHub's OpenAPI document into client endpoint
classes. The model covers:

- the **support filter** (`isSupported`, `returnsVoid`, `returnsApplicationJson`);
- **success-response selection** (`get2xxJsonResponse`);
- the **parameter to schema fallback** (`getSchema`);
- **request-class construction** (`generateRequestClass`);
- `createMethod`, as far as the request and response classes and the category go;
- in `build`: grouping the methods **by category**, making **one endpoint per
  category**, and **pruning every `ClazzReference`** from the class list.

Files:

- `wrappers.dfy`: `Option` stands for Java's `null`, and `Result` for a thrown exception.
- `java_strings.dfy`: `startsWith`, `compareTo`, and `toUpperCase` restricted to ASCII.
  It also proves that `compareTo` orders strings totally.
- `openapi.dfy`: the parsed document. A Java `Method` is called `Operation` here.
  An operation's response map is the list of its entries in iteration order.
- `code_model.dfy`: fields, classes and `ClazzReference` placeholders, endpoint methods, and endpoints.
- `endpoint_generator.dfy`: the generator itself.
  - It has one section per step of the Java class.
  - The `EndpointGenerator` class holds the fields that `build` assigns: the component index and the model generator's class list.
- `scenarios.dfy`: concrete operations showing where the filter and the response selection disagree.

The code has a few sharp edges, and the model makes each one explicit:

- `returnsApplicationJson` accepts JSON on a response of any status: a JSON `404` is enough.
- `get2xxJsonResponse` looks only at the 2xx response with the smallest name.
  - When several responses share that name, it takes the first one in iteration order, because `Stream.min` keeps its left operand on a tie.
  - If that response has no `application/json`, the run aborts, even when another 2xx response has JSON.
- So passing the filter does not guarantee that a response class can be built.
  An operation whose only response is `204` passes the filter, yet it aborts the whole `build` (`NoContentOnlyAbortsBuild`).
  When every response name equals its status key, this missing JSON is the only way response selection can still fail for a supported operation (`SupportedFindsSuccessResponse`).
  Building the method can still fail for other reasons: a parameter without a schema or ref (`NoSchema`), an unknown `in` (`UnrecognizedLocation`), or a missing category (`NullCategory`).
- A method whose category is missing aborts the run, because `groupingBy` rejects null keys.
  The model treats this as an error result (`NullCategory`), not as a precondition.
- `isSupported` reads the status keys of the response map, but `get2xxJsonResponse` reads each response's own name.
  The model keeps the two apart. The lemmas that connect the filter and the selection assume that the two agree (`StatusNamed`).

The collaborators whose code is not part of this model are passed in as functions in a `Collaborators` record:

- `Words.getTypeName` and `Words.getVariableName`;
- `ModelGenerator.getField` and `ModelGenerator.build`;
- `ResolveReferences.resolve`.

## Model

| member | source | states |
|---|---|---|
| `JavaStrings.StartsWith` | src/test/java/org/tomitribe/github/gen/EndpointGenerator.java:108 | `startsWith`: the string begins with the prefix; used for the 2xx test on keys (line 108) and on names (line 187); specified by `IsSupported` and `Get2xxJsonResponse` |
| `JavaStrings.CompareTo` | src/test/java/org/tomitribe/github/gen/EndpointGenerator.java:188 | `compareTo`: the difference of the first differing characters, else of the lengths; specified by `CompareToAntisymmetric`, `CompareToZero` and the `LexLe` lemmas |
| `JavaStrings.CompareToAntisymmetric` | src/test/java/org/tomitribe/github/gen/EndpointGenerator.java:188 | `compareTo(a, b)` is the negation of `compareTo(b, a)` |
| `JavaStrings.CompareToZero` | src/test/java/org/tomitribe/github/gen/EndpointGenerator.java:188 | `compareTo` is zero exactly on equal strings |
| `JavaStrings.LexLeTotal` | src/test/java/org/tomitribe/github/gen/EndpointGenerator.java:188 | any two response names are comparable |
| `JavaStrings.LexLeAntisymmetric` | src/test/java/org/tomitribe/github/gen/EndpointGenerator.java:188 | two names each no greater than the other are equal |
| `JavaStrings.LexLeTransitive` | src/test/java/org/tomitribe/github/gen/EndpointGenerator.java:188 | the name order is transitive, so a minimum is well defined |
| `JavaStrings.ToUpperCase` | src/test/java/org/tomitribe/github/gen/EndpointGenerator.java:206 | `toUpperCase`, for ASCII letters; specified by `ParseInMatchesUpperCase` and `ParseInLowerCase` |
| `EndpointGeneration.Is2xx` | src/test/java/org/tomitribe/github/gen/EndpointGenerator.java:108 | a status or name starting with "2"; specified by `IsSupported` and `FirstMin2xxIsChosen` |
| `EndpointGeneration.Has2xxStatus` | src/test/java/org/tomitribe/github/gen/EndpointGenerator.java:108 | some status key starts with "2"; specified by `IsSupported` |
| `EndpointGeneration.ReturnsApplicationJson` | src/test/java/org/tomitribe/github/gen/EndpointGenerator.java:122-128 | some response, of any status, has an "application/json" content key; specified by `IsSupported` |
| `EndpointGeneration.ReturnsVoid` | src/test/java/org/tomitribe/github/gen/EndpointGenerator.java:130-132 | some status key is exactly "204"; specified by `IsSupported` |
| `EndpointGeneration.IsSupported` | src/test/java/org/tomitribe/github/gen/EndpointGenerator.java:92-132 | unsupported without a summary or without responses; otherwise supported iff some status starts with "2" and (some status is exactly "204" or some response of any status has an "application/json" content key) |
| `EndpointGeneration.FirstMin2xx` | src/test/java/org/tomitribe/github/gen/EndpointGenerator.java:186-189 | the `filter(startsWith("2")).min(comparing(getName))` reduction, as the index of the response it keeps; specified by `FirstMin2xxIsChosen` and `ChosenIsUnique` |
| `EndpointGeneration.FirstMin2xxIsChosen` | src/test/java/org/tomitribe/github/gen/EndpointGenerator.java:186-189 | the reduction finds nothing iff no response name starts with "2"; otherwise it picks a 2xx response whose name is no greater than every 2xx name and is the first with that name |
| `EndpointGeneration.ChosenIsUnique` | src/test/java/org/tomitribe/github/gen/EndpointGenerator.java:186-189 | at most one response satisfies that choice, so the chosen response is determined |
| `EndpointGeneration.Get2xxJsonResponse` | src/test/java/org/tomitribe/github/gen/EndpointGenerator.java:179-194 | fails with NoResponses when the map is absent and with No2xxResponses iff no name starts with "2"; on success returns the "application/json" content of the chosen response; fails with NoJsonContent only when the chosen response lacks that key; no other outcome |
| `EndpointGeneration.SupportedFindsSuccessResponse` | src/test/java/org/tomitribe/github/gen/EndpointGenerator.java:186-192 | for a supported operation whose response names equal their keys, selection either succeeds or fails only for missing JSON |
| `EndpointGeneration.SelectedImpliesSupported` | src/test/java/org/tomitribe/github/gen/EndpointGenerator.java:96-132 | for an operation with a summary whose response names equal their keys, a successful selection implies that the operation passes the support filter |
| `EndpointGeneration.GetSchema` | src/test/java/org/tomitribe/github/gen/EndpointGenerator.java:214-226 | returns the parameter's own schema when present; otherwise a new schema whose ref is the parameter's ref and whose other attributes are unset; fails with NoSchema iff neither is present |
| `EndpointGeneration.LocationValueOf` | src/test/java/org/tomitribe/github/gen/EndpointGenerator.java:206 | `Field.In.valueOf` returns the constant whose name is the argument, and fails iff no constant has that name |
| `EndpointGeneration.ParseIn` | src/test/java/org/tomitribe/github/gen/EndpointGenerator.java:206 | `Field.In.valueOf(in.toUpperCase())`, with no constant as the thrown exception; specified by `ParseInMatchesUpperCase` and `ParseInLowerCase` |
| `EndpointGeneration.FieldFor` | src/test/java/org/tomitribe/github/gen/EndpointGenerator.java:199-209 | one pass of the parameter loop: schema, fallback name, `getField`, then the location; specified by `RequestFieldAt` and `RequestFieldNames` |
| `EndpointGeneration.RequestFields` | src/test/java/org/tomitribe/github/gen/EndpointGenerator.java:198-210 | the fields the loop appends, or the first failure; specified by `RequestFieldsOkIff`, `RequestFieldsPerParameter`, `RequestFieldsFirstError` and `RequestFieldsPrefixFails` |
| `EndpointGeneration.RequestClass` | src/test/java/org/tomitribe/github/gen/EndpointGenerator.java:196-211 | `generateRequestClass` as a value: the class named modelPackage + "." + request name with those fields; the loop `GenerateRequestClass` is proved equal to it |
| `EndpointGeneration.ParseInMatchesUpperCase` | src/test/java/org/tomitribe/github/gen/EndpointGenerator.java:206 | a declared `in` maps to a location iff its upper-cased text is that constant's name |
| `EndpointGeneration.ParseInLowerCase` | src/test/java/org/tomitribe/github/gen/EndpointGenerator.java:205-207 | "path", "query", "header", "body" and "cookie" map to their constants; "formData" is rejected |
| `EndpointGeneration.RequestFieldsPrefixFails` | src/test/java/org/tomitribe/github/gen/EndpointGenerator.java:198-210 | once the loop has failed on some parameter, the later parameters do not change the outcome |
| `EndpointGeneration.RequestFieldsOkIff` | src/test/java/org/tomitribe/github/gen/EndpointGenerator.java:198-210 | the fields are built iff every parameter yields a field |
| `EndpointGeneration.RequestFieldsPerParameter` | src/test/java/org/tomitribe/github/gen/EndpointGenerator.java:198-210 | once built, there is exactly one field per parameter, in parameter order |
| `EndpointGeneration.RequestFieldsFirstError` | src/test/java/org/tomitribe/github/gen/EndpointGenerator.java:198-210 | a failure is the failure of the first parameter that fails, all earlier ones succeeding |
| `EndpointGeneration.RequestFieldAt` | src/test/java/org/tomitribe/github/gen/EndpointGenerator.java:199-208 | field i is what getField makes of parameter i's schema under the parameter's name, or the schema's name when it has none; its location is the constant for the upper-cased `in`, which must exist; without `in` it is the location getField produced |
| `EndpointGeneration.RequestFieldNames` | src/test/java/org/tomitribe/github/gen/EndpointGenerator.java:201-203 | when getField names the field as asked, field i is named after parameter i, or after its schema when the parameter has no name |
| `EndpointGeneration.GenerateRequestClass` | src/test/java/org/tomitribe/github/gen/EndpointGenerator.java:196-212 | the loop yields the class named `modelPackage` + "." + request name, for the package it is given, with the fields described above, or the first parameter's failure |
| `EndpointGeneration.CreateMethod` | src/test/java/org/tomitribe/github/gen/EndpointGenerator.java:134-177 | fails with the request class's failure first, then with the response selection's; otherwise the method carries that request class, the model built from the chosen JSON schema, the variable name of the summary, the summary, the operationId, the HTTP method, the path and the category |
| `EndpointGeneration.SupportedOperations` | src/test/java/org/tomitribe/github/gen/EndpointGenerator.java:63-64 | exactly the supported operations are kept |
| `EndpointGeneration.Assemble` | src/test/java/org/tomitribe/github/gen/EndpointGenerator.java:63-66 | every method that reaches the grouping has a category |
| `EndpointGeneration.Classified` | src/test/java/org/tomitribe/github/gen/EndpointGenerator.java:63-66 | one supported operation through `createMethod` and the null-key test of `groupingBy`; specified by `AssembleOkIff`, `AssembleClassifiesEach` and `AssembleFirstError` |
| `EndpointGeneration.AssembleOkIff` | src/test/java/org/tomitribe/github/gen/EndpointGenerator.java:63-66 | assembly succeeds iff every supported operation makes a method with a category |
| `EndpointGeneration.AssembleIsMapOfSupported` | src/test/java/org/tomitribe/github/gen/EndpointGenerator.java:63-66 | once assembled, there is one method per supported operation, and method i is the one made from supported operation i |
| `EndpointGeneration.AssembleClassifiesEach` | src/test/java/org/tomitribe/github/gen/EndpointGenerator.java:63-66 | after a successful assembly, every supported operation, by its position in the input, made a method with a category |
| `EndpointGeneration.AssembleFirstError` | src/test/java/org/tomitribe/github/gen/EndpointGenerator.java:63-66 | a failed assembly reports the failure of the first supported operation in input order that makes no method or a method without a category; every supported operation before it succeeds |
| `EndpointGeneration.CategoriesOf` | src/test/java/org/tomitribe/github/gen/EndpointGenerator.java:66 | the grouping keys are exactly the categories carried by some method |
| `EndpointGeneration.MethodsIn` | src/test/java/org/tomitribe/github/gen/EndpointGenerator.java:66 | the methods of one category in encounter order; specified by `MethodsInMembers` and `MethodsInEmpty` |
| `EndpointGeneration.GroupingBy` | src/test/java/org/tomitribe/github/gen/EndpointGenerator.java:66 | `Collectors.groupingBy(getCategory)` as a fold appending each method to its key's list; specified by `GroupingByKeys` and `GroupingByValues` |
| `EndpointGeneration.MethodsInMembers` | src/test/java/org/tomitribe/github/gen/EndpointGenerator.java:66 | a category's list holds exactly the methods of that category |
| `EndpointGeneration.MethodsInEmpty` | src/test/java/org/tomitribe/github/gen/EndpointGenerator.java:66 | a category's list is empty iff no method has that category |
| `EndpointGeneration.GroupingByKeys` | src/test/java/org/tomitribe/github/gen/EndpointGenerator.java:66 | the keys of `groupingBy` are exactly the distinct categories of the methods |
| `EndpointGeneration.GroupingByValues` | src/test/java/org/tomitribe/github/gen/EndpointGenerator.java:66 | each key maps to the methods of that category in encounter order, and a category that is not a key has no method |
| `EndpointGeneration.GroupingByIsFilter` | src/test/java/org/tomitribe/github/gen/EndpointGenerator.java:63-66 | both facts together: one key per distinct category, mapped to the methods of that category in encounter order |
| `EndpointGeneration.MakeEndpoints` | src/test/java/org/tomitribe/github/gen/EndpointGenerator.java:68-80 | in whatever order the entries are visited, the loop makes one endpoint per key, visiting each key once, named getTypeName(key + "-client") and holding that key's methods; so there are as many endpoints as keys, every endpoint is the one of some key, and every key's endpoint is present |
| `EndpointGeneration.EndpointsFollowCategories` | src/test/java/org/tomitribe/github/gen/EndpointGenerator.java:63-80 | the number of endpoints is the number of distinct categories; each endpoint holds the methods of its category in encounter order, and at least one |
| `EndpointGeneration.EndpointMethodsShareCategory` | src/test/java/org/tomitribe/github/gen/EndpointGenerator.java:63-80 | every method of an endpoint is an input method of that endpoint's category |
| `EndpointGeneration.EachMethodInSomeEndpoint` | src/test/java/org/tomitribe/github/gen/EndpointGenerator.java:63-80 | every supported method appears in some endpoint |
| `EndpointGeneration.EachMethodInOneEndpoint` | src/test/java/org/tomitribe/github/gen/EndpointGenerator.java:63-80 | no method appears in two endpoints |
| `EndpointGeneration.WithoutReferences` | src/test/java/org/tomitribe/github/gen/EndpointGenerator.java:87 | pruning never lengthens the class list |
| `EndpointGeneration.WithoutReferencesMembers` | src/test/java/org/tomitribe/github/gen/EndpointGenerator.java:85-87 | no `ClazzReference` remains, and every other class is kept |
| `EndpointGeneration.WithoutReferencesAppend` | src/test/java/org/tomitribe/github/gen/EndpointGenerator.java:87 | pruning a concatenation prunes each part separately, so the kept classes stay in their original order |
| `EndpointGeneration.WithoutReferencesKeepsClasses` | src/test/java/org/tomitribe/github/gen/EndpointGenerator.java:87 | a list holding no `ClazzReference` is unchanged |
| `EndpointGeneration.WithoutReferencesIdempotent` | src/test/java/org/tomitribe/github/gen/EndpointGenerator.java:87 | pruning twice is pruning once |
| `EndpointGeneration.EndpointGenerator.constructor` | src/test/java/org/tomitribe/github/gen/EndpointGenerator.java:54-58 | the packages are "org.tomitribe.github.model" and "org.tomitribe.github.client"; there is no index yet and the class list is empty |
| `EndpointGeneration.EndpointGenerator.Build` | src/test/java/org/tomitribe/github/gen/EndpointGenerator.java:60-90 | the component index is built for the document; the request classes are named under the generator's own `modelPackage` field; an assembly failure aborts with that error and leaves the class list alone; otherwise the endpoints are the grouping listed as above, and the class list is the resolved list without any `ClazzReference` |
| `EndpointScenarios.ChoosesLowest2xx` | src/test/java/org/tomitribe/github/gen/EndpointGenerator.java:186-193 | with responses "201", "404" and "200", all with JSON, the "200" content is chosen |
| `EndpointScenarios.JsonOnErrorResponseOnly` | src/test/java/org/tomitribe/github/gen/EndpointGenerator.java:117-132 | JSON only on a "404", next to a zip "201", passes the filter but selection fails with NoJsonContent |
| `EndpointScenarios.OnlyLowest2xxInspected` | src/test/java/org/tomitribe/github/gen/EndpointGenerator.java:186-192 | a bare "200" next to a JSON "201" passes the filter but selection fails with NoJsonContent |
| `EndpointScenarios.NoContentOnlyAbortsBuild` | src/test/java/org/tomitribe/github/gen/EndpointGenerator.java:130-192 | an operation whose only response is "204" passes the filter, and assembling it fails with NoJsonContent |
| `EndpointScenarios.ZipOnlyIsFiltered` | src/test/java/org/tomitribe/github/gen/EndpointGenerator.java:110-117 | an operation whose only response is a zip "200" is unsupported and contributes no method |
| `EndpointScenarios.JsonBesideNoContent` | src/test/java/org/tomitribe/github/gen/EndpointGenerator.java:117-193 | JSON "200" next to "204" is supported and its JSON content is chosen |

## Left out

- `ModelGenerator`, `ComponentIndex`, `ResolveReferences` and `Words` are not part of this model.
  They are the function-typed fields of `Collaborators`. A component index is recorded only as the document it was built from.
- During `createMethod`, `ModelGenerator.getField` and `ModelGenerator.build` also add classes to the model generator's class list. The model does not capture that side effect.
  The list `build` resolves and prunes is the generator object's `classes` field.
  The constructor starts that list empty, on the assumption that a fresh `ModelGenerator` holds no classes.
- `getField` receives the class name only, not the whole `Clazz.Builder`.
- The `Collaborators` functions are total, so no exception from `Words`, `ModelGenerator.getField`, `ModelGenerator.build` or `ResolveReferences.resolve` is modelled. In Java such an exception would abort `build`, possibly before the failures `CreateMethod` orders.
- EndpointGeneration.EndpointGenerator.Build: it does not state how `ResolveReferences.resolve` changes the request and response classes inside the endpoints in place. The endpoints it describes are the grouped endpoints, as they stand before resolution.
- `createMethod` copies some operation metadata that the model leaves out (lines 150-168):
  - the docs URL;
  - the subcategory;
  - the removal and deprecation dates;
  - the GitHub App and cloud-only flags;
  - the previews.

  Only the category is kept, because grouping depends on it. The summary and the operationId are kept as well.
- The order of the endpoints in the result follows `HashMap` iteration and is unspecified.
  `MakeEndpoints` chooses the next category nondeterministically, so its contract holds for every visiting order.
- Some Java references that could be `null` are assumed present:
  - a response's content map;
  - a response's name;
  - an operation's parameter list;
  - a content map value;
  - a content's schema.

  The `NullPointerException` any of these would raise is not modelled.
- `String.compareTo` compares UTF-16 code units, but Dafny characters are Unicode scalar values. The two orders differ only for characters outside the Basic Multilingual Plane.
- `String.toUpperCase` is modelled for ASCII letters only.
  Java's full Unicode and locale mapping is not modelled. For example, U+0131, the dotless i, upper-cases to `I` in Java.
- `Field.java` is not part of this model. The `Field.In` constants are assumed to be PATH, QUERY, HEADER, BODY and COOKIE.
- Exception messages are not modelled. An error records its kind, and for an unmatched `in` it also records the upper-cased value.
- src/test/resources/GeneratorTest/all/after/src/main/java/org/tomitribe/github/model/ListOrganizationMembers.java is a generated fixture (annotations, Lombok, enums), with no logic to model.
- Lombok-generated accessors are not modelled, nor the unused `endpointPackage` beyond the constructor.
